// The thread-to-run-loop hand-off of RunLoop, ActiveMsg, ActiveCall and
// ThreadWithMessage, as a state machine.  Each lock, test, wait, flag write,
// push, pop, callback start, callback end and unlock is a step of its own, and
// the steps of the loop thread and of all workers interleave freely.
module HandOff {
  import opened Common
  import opened NetInterface

  // Identities are never reused, so a destroyed message stays distinguishable.
  type MsgId = nat

  // Where the thread of one ThreadWithMessage stands in its run().
  datatype WorkerPc =
    | NotStarted  // start() not called yet
    | Outside     // client code between two ActiveCalls
    | WantMsg     // constructing the CondLock: needs the message mutex
    | Checking    // holds it, about to compare the flag with 0
    | Asleep      // inside Threads::wait
    | Entered     // the flag was 0: about to test `destroyed`
    | Throwing    // the constructor throws: about to unlock
    | Writing     // owns the shared fields
    | Written     // has filled them
    | Flagged     // call(): the flag is set, the loop mutex is wanted
    | LoopHeld    // inside RunLoop::enqueue, before push_back
    | Pushed      // after push_back, before set
    | Signalled   // after set, before the loop mutex is released
    | Called      // call() has returned, the message mutex is still held
    | Exited      // the thread function has returned or thrown

  datatype MsgHolder = MsgFree | HeldByMain | HeldByWorker

  datatype LoopHolder = LoopFree | LoopByMain | LoopByWorker(w: MsgId)

  // One ThreadWithMessage: its ActiveMsg, its worker, and the fields shared
  // between the worker and onCall.
  datatype Message = Message(
    alive: bool,                      // ~ActiveMsg has not run
    mutex: MsgHolder,                 // CondVar::m_
    flag: bool,                       // CondVar::d_
    destroyed: bool,
    pc: WorkerPc,
    slot: Option<NetworkInterface>,   // curInterface
    script: seq<NetworkInterface>,    // the list the worker walks
    pos: nat,                         // p, as an index into the list
    filter: Family,
    seen: seq<NetworkInterface>,      // history: the slot at each onCall
    reported: seq<NetworkInterface>)  // history: calls of onInterfaceDetected

  // Which piece of client code the loop thread is running.
  datatype Body = BeforeRun | InOnCall | InOnTimer

  datatype MainPc =
    | Top                                        // while( running )
    | WantLoop(timed: bool)                      // constructing the CondLock on c
    | LoopCheck(timed: bool)                     // holds it, about to test the flag
    | LoopAsleep(timed: bool)
    | LoopRetake(timed: bool, timedOut: bool)    // woken, needs the mutex again
    | LoopPop
    | LoopSet
    | LoopUnlock
    | CallStart                                  // if( processedMsg ) onCall()
    | Client(body: Body)
    | TermWant(m: MsgId, body: Body)             // requestTermination
    | TermHeld(m: MsgId, body: Body)
    | TermMarked(m: MsgId, body: Body)
    | TermCleared(m: MsgId, body: Body)
    | Joining(m: MsgId, body: Body)              // waitTermination
    | AfterCall                                  // if( processedMsg ) clear its flag
    | ClearWant
    | ClearHeld
    | Cleared
    | Drain                                      // while( !timers.empty() )
    | ExitCheck
    | Done

  datatype State = State(
    msgs: map<MsgId, Message>,   // every message ever created
    loopMutex: LoopHolder,
    loopFlag: bool,
    queue: seq<MsgId>,
    processed: Option<MsgId>,
    main: MainPc,
    timers: nat,                 // length of the timer queue
    msgCnt: int,
    running: bool,
    stopped: bool)               // history: stop() was called since run() began

  datatype Action =
    | WorkerStep(w: MsgId)
    | WorkerQuit(w: MsgId)       // run() of the worker returns early
    | WorkerSpurious(w: MsgId)   // Threads::wait returns without a signal
    | MainStep
    | FireTimer                  // the front timer is due: pop it, process it
    | TimersNotDue               // the front timer is not due: break
    | Timeout
    | MainSpurious
    | Create(m: MsgId, script: seq<NetworkInterface>, filter: Family)
    | Start(m: MsgId)
    | AskTermination(m: MsgId)
    | Join(m: MsgId)
    | Destroy(m: MsgId)
    | TimersBecome(n: nat)       // client code sets or cancels timers
    | Stop
    | Return                     // the client code returns

  const Initial := State(map[], LoopFree, false, [], None, Client(BeforeRun), 0, 0, false, false)

  // CondLock::set on the message's condition: one waiter at most, so the
  // signal wakes it; it then has to take the mutex again.
  function SetFlag(msg: Message, val: bool): Message {
    msg.(flag := val, pc := if msg.pc == Asleep then WantMsg else msg.pc)
  }

  // CondLock::set on the loop's condition.
  function SetLoopFlag(s: State, val: bool): State {
    s.(loopFlag := val,
       main := if s.main.LoopAsleep? then LoopRetake(s.main.timed, false) else s.main)
  }

  function Put(s: State, m: MsgId, msg: Message): State {
    s.(msgs := s.msgs[m := msg])
  }

  // ---------- the worker ----------

  predicate WorkerCanStep(s: State, w: MsgId) {
    w in s.msgs &&
    match s.msgs[w].pc
    case NotStarted => false
    case Exited => false
    case Asleep => false
    case WantMsg => s.msgs[w].mutex == MsgFree
    case Flagged => s.loopMutex == LoopFree
    case _ => true
  }

  // The worker's own message after its next step.
  function Advance(msg: Message): Message {
    match msg.pc
    case Outside => msg.(pc := if msg.pos < |msg.script| then WantMsg else Exited)
    case WantMsg => msg.(pc := Checking, mutex := HeldByWorker)
    case Checking => if msg.flag then msg.(pc := Asleep, mutex := MsgFree) else msg.(pc := Entered)
    case Entered => msg.(pc := if msg.destroyed then Throwing else Writing)
    case Throwing => msg.(pc := Exited, mutex := MsgFree)
    case Writing => msg.(pc := Written, slot := if msg.pos < |msg.script| then Some(msg.script[msg.pos]) else None)
    case Written => msg.(pc := Flagged, flag := true)
    case Flagged => msg.(pc := LoopHeld)
    case LoopHeld => msg.(pc := Pushed)
    case Pushed => msg.(pc := Signalled)
    case Signalled => msg.(pc := Called)
    case Called => msg.(pc := Outside, mutex := MsgFree, pos := msg.pos + 1)
    case _ => msg
  }

  // At or inside RunLoop::enqueue.
  predicate InEnqueue(pc: WorkerPc) {
    pc.Flagged? || pc.LoopHeld? || pc.Pushed? || pc.Signalled?
  }

  // What the same step does to the loop: RunLoop::enqueue.
  function LoopEffect(s: State, w: MsgId, pc: WorkerPc): State {
    match pc
    case Flagged => s.(loopMutex := LoopByWorker(w))
    case LoopHeld => s.(queue := s.queue + [w])
    case Pushed => SetLoopFlag(s, s.queue != [])
    case Signalled => s.(loopMutex := LoopFree)
    case _ => s
  }

  function StepWorker(s: State, w: MsgId): State
    requires WorkerCanStep(s, w)
  {
    Put(LoopEffect(s, w, s.msgs[w].pc), w, Advance(s.msgs[w]))
  }

  // ---------- RunLoop::run, requestTermination and waitTermination ----------

  predicate MainCanStep(s: State) {
    match s.main
    case WantLoop(_) => s.loopMutex == LoopFree
    case LoopRetake(_, _) => s.loopMutex == LoopFree
    case LoopAsleep(_) => false
    case Client(_) => false
    case TermWant(m, _) => m in s.msgs && s.msgs[m].mutex == MsgFree
    case TermHeld(m, _) => m in s.msgs
    case TermMarked(m, _) => m in s.msgs
    case TermCleared(m, _) => m in s.msgs
    case Joining(m, _) => m in s.msgs && s.msgs[m].pc == Exited
    case ClearWant => ProcessedKnown(s) && s.msgs[s.processed.value].mutex == MsgFree
    case ClearHeld => ProcessedKnown(s)
    case Cleared => ProcessedKnown(s)
    case CallStart => s.processed.Some? ==> ProcessedKnown(s)
    case Drain => s.timers == 0
    case Done => false
    case _ => true
  }

  predicate ProcessedKnown(s: State) {
    s.processed.Some? && s.processed.value in s.msgs
  }

  // delegate->onCall as far as the mailbox client goes: it reads the shared
  // field and reports it when it passes the filter.
  function Observe(msg: Message): Message {
    if msg.slot.None? then msg
    else
      var v := msg.slot.value;
      msg.(seen := msg.seen + [v],
           reported := if Passes(msg.filter, v) then msg.reported + [v] else msg.reported)
  }

  function StepMain(s: State): State
    requires MainCanStep(s)
  {
    match s.main
    case Top =>
      if s.running then s.(processed := None, main := WantLoop(s.timers != 0))
      else s.(main := Done)
    case WantLoop(t) => s.(loopMutex := LoopByMain, main := LoopCheck(t))
    case LoopCheck(t) =>
      if s.loopFlag then s.(main := LoopPop)
      else s.(loopMutex := LoopFree, main := LoopAsleep(t))
    case LoopRetake(t, out) =>
      s.(loopMutex := LoopByMain, main := if out then LoopPop else LoopCheck(t))
    case LoopPop =>
      if s.queue == [] then s.(main := LoopSet)
      else s.(processed := Some(s.queue[0]), queue := s.queue[1..], main := LoopSet)
    case LoopSet => s.(loopFlag := s.queue != [], main := LoopUnlock)
    case LoopUnlock => s.(loopMutex := LoopFree, main := CallStart)
    case CallStart =>
      if s.processed.None? then s.(main := AfterCall)
      else
        var m := s.processed.value;
        Put(s, m, Observe(s.msgs[m])).(main := Client(InOnCall))
    case TermWant(m, b) =>
      Put(s, m, s.msgs[m].(mutex := HeldByMain)).(main := TermHeld(m, b))
    case TermHeld(m, b) =>
      Put(s, m, s.msgs[m].(destroyed := true)).(main := TermMarked(m, b))
    case TermMarked(m, b) =>
      Put(s, m, SetFlag(s.msgs[m], false)).(main := TermCleared(m, b))
    case TermCleared(m, b) =>
      Put(s, m, s.msgs[m].(mutex := MsgFree)).(main := Client(b))
    case Joining(m, b) => s.(main := Client(b))
    case AfterCall => s.(main := if s.processed.Some? then ClearWant else Drain)
    case ClearWant =>
      var m := s.processed.value;
      Put(s, m, s.msgs[m].(mutex := HeldByMain)).(main := ClearHeld)
    case ClearHeld =>
      var m := s.processed.value;
      Put(s, m, SetFlag(s.msgs[m], false)).(main := Cleared)
    case Cleared =>
      var m := s.processed.value;
      Put(s, m, s.msgs[m].(mutex := MsgFree)).(main := Drain)
    case Drain => s.(main := ExitCheck)
    case ExitCheck =>
      s.(running := if s.timers == 0 && s.msgCnt == 0 then false else s.running, main := Top)
    case _ => s
  }

  function AfterBody(s: State): State
    requires s.main.Client?
  {
    match s.main.body
    case BeforeRun => s.(main := Top, running := true, stopped := false)
    case InOnCall => s.(main := AfterCall)
    case InOnTimer => s.(main := Drain)
  }

  // ---------- all actions ----------

  predicate Alive(s: State, m: MsgId) {
    m in s.msgs && s.msgs[m].alive
  }

  // Client rules: a thread is started once, waitTermination follows
  // requestTermination, and a message is destroyed only when its thread does
  // not run (it was never started, or it was joined).
  predicate Enabled(s: State, a: Action) {
    match a
    case WorkerStep(w) => WorkerCanStep(s, w)
    case WorkerQuit(w) => w in s.msgs && s.msgs[w].pc == Outside
    case WorkerSpurious(w) => w in s.msgs && s.msgs[w].pc == Asleep
    case MainStep => MainCanStep(s)
    case FireTimer => s.main == Drain && s.timers > 0
    case TimersNotDue => s.main == Drain && s.timers > 0
    case Timeout => s.main == LoopAsleep(true)
    case MainSpurious => s.main.LoopAsleep?
    case Create(m, _, _) => s.main.Client? && m !in s.msgs
    case Start(m) => s.main.Client? && Alive(s, m) && s.msgs[m].pc == NotStarted
    case AskTermination(m) => s.main.Client? && Alive(s, m)
    case Join(m) => s.main.Client? && Alive(s, m) && s.msgs[m].destroyed && s.msgs[m].pc != NotStarted
    case Destroy(m) => s.main.Client? && Alive(s, m) && s.msgs[m].pc in {NotStarted, Exited}
    case TimersBecome(_) => s.main.Client?
    case Stop => s.main.Client?
    case Return => s.main.Client?
  }

  function Step(s: State, a: Action): State
    requires Enabled(s, a)
  {
    match a
    case WorkerStep(w) => StepWorker(s, w)
    case WorkerQuit(w) => Put(s, w, s.msgs[w].(pc := Exited))
    case WorkerSpurious(w) => Put(s, w, s.msgs[w].(pc := WantMsg))
    case MainStep => StepMain(s)
    case FireTimer => s.(timers := s.timers - 1, main := Client(InOnTimer))
    case TimersNotDue => s.(main := ExitCheck)
    case Timeout => s.(main := LoopRetake(true, true))
    case MainSpurious => s.(main := LoopRetake(s.main.timed, false))
    case Create(m, script, filter) =>
      Put(s, m, Message(true, MsgFree, false, false, NotStarted, None, script, 0, filter, [], []))
      .(msgCnt := s.msgCnt + 1)
    case Start(m) => Put(s, m, s.msgs[m].(pc := Outside))
    case AskTermination(m) => s.(main := TermWant(m, s.main.body))
    case Join(m) => s.(main := Joining(m, s.main.body))
    case Destroy(m) =>
      // ~ActiveMsg: RunLoop::dequeue as one atomic step, then deregisterMsg
      Put(s, m, s.msgs[m].(alive := false))
      .(processed := if s.processed == Some(m) then None else s.processed,
        queue := Without(s.queue, m), msgCnt := s.msgCnt - 1)
    case TimersBecome(n) => s.(timers := n)
    case Stop => s.(running := false, stopped := true)
    case Return => AfterBody(s)
  }

  predicate CanRun(s: State, acts: seq<Action>)
    decreases acts
  {
    acts == [] || (Enabled(s, acts[0]) && CanRun(Step(s, acts[0]), acts[1..]))
  }

  function Run(s: State, acts: seq<Action>): State
    requires CanRun(s, acts)
    decreases acts
  {
    if acts == [] then s else Run(Step(s, acts[0]), acts[1..])
  }

  ghost predicate Reachable(s: State) {
    exists acts :: CanRun(Initial, acts) && Run(Initial, acts) == s
  }
}
