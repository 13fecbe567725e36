// A queued message can always still get its onCall.
module HandOffReach {
  import opened Common
  import opened HandOff
  import opened HandOffInvariant
  import opened HandOffMain
  import opened HandOffTheorems
  import opened LoopImage

  // run() is under way, or will be.
  predicate Going(s: State) {
    (s.running || BodyIsBeforeRun(s.main)) && !s.main.Done?
  }

  // How many steps of the loop thread there are to its next pop, at most.
  function StepsToPop(pc: MainPc): nat {
    match pc
    case LoopPop => 0
    case LoopCheck(_) => 1
    case LoopRetake(_, _) => 2
    case WantLoop(_) => 2
    case LoopAsleep(_) => 3
    case Top => 3
    case ExitCheck => 4
    case Drain => 5
    case Cleared => 6
    case ClearHeld => 7
    case ClearWant => 8
    case AfterCall => 9
    case Client(_) => 10
    case CallStart => 11
    case Joining(_, _) => 11
    case TermCleared(_, _) => 11
    case TermMarked(_, _) => 12
    case TermHeld(_, _) => 13
    case TermWant(_, _) => 14
    case LoopUnlock => 12
    case LoopSet => 13
    case Done => 0
  }

  // What the loop thread does next when client code returns and no timer is due.
  function Next(s: State): Action {
    if s.main.Client? then Return else if s.main.Drain? && s.timers > 0 then TimersNotDue else MainStep
  }

  // ---------- what worker steps leave alone ----------

  predicate WorkersOnlyAdd(s: State, t: State) {
    && s.queue <= t.queue && t.running == s.running
    && (t.main == s.main || (s.main.LoopAsleep? && t.main.LoopRetake?))
  }

  lemma WorkerAdds(s: State, w: MsgId)
    requires WorkerCanStep(s, w)
    ensures WorkersOnlyAdd(s, StepWorker(s, w))
  {
  }

  lemma {:induction false} WorkersAdd(s: State, acts: seq<Action>)
    requires CanRun(s, acts) && WorkersOnly(acts)
    ensures WorkersOnlyAdd(s, Run(s, acts))
    decreases acts
  {
    if acts != [] {
      var rest := acts[1..];
      assert acts[0].WorkerStep? && forall i :: 0 <= i < |rest| ==> rest[i] == acts[i + 1];
      WorkerAdds(s, acts[0].w);
      WorkersAdd(Step(s, acts[0]), rest);
    }
  }

  // ---------- what the loop thread's own step gains ----------

  // The message at place k of the queue is closer to its onCall in u.
  predicate Gains(s: State, k: nat, u: State) {
    && Going(u)
    && if s.main.LoopPop? then s.queue != [] && u.queue == s.queue[1..]
       else u.queue == s.queue && StepsToPop(u.main) < StepsToPop(s.main)
  }

  predicate InLoopPart(pc: MainPc) {
    pc.Top? || pc.WantLoop? || pc.LoopCheck? || pc.LoopRetake? || pc.LoopPop? || pc.LoopSet? || pc.LoopUnlock? ||
    pc.ExitCheck? || pc.AfterCall? || pc.Joining?
  }

  lemma LoopPartGains(s: State, k: nat)
    requires LoopInv(s) && Going(s) && k < |s.queue| && MainCanStep(s) && InLoopPart(s.main) && s.msgCnt != 0
    ensures Gains(s, k, StepMain(s))
  {
  }

  lemma MessagePartGains(s: State, k: nat)
    requires Going(s) && k < |s.queue| && MainCanStep(s) && !InLoopPart(s.main) && !s.main.Drain?
    ensures Gains(s, k, StepMain(s))
  {
  }

  lemma ClientPartGains(s: State, k: nat)
    requires Going(s) && k < |s.queue| && (s.main.Client? || s.main.Drain?)
    ensures Enabled(s, Next(s)) && Gains(s, k, Step(s, Next(s)))
  {
  }

  lemma OwnStepGains(s: State, k: nat)
    requires Inv(s) && Going(s) && k < |s.queue| && MainCanAct(s)
    ensures Enabled(s, Next(s)) && Gains(s, k, Step(s, Next(s)))
  {
    PendingMeansLive(s);
    if s.main.Client? || s.main.Drain? {
      ClientPartGains(s, k);
    } else if InLoopPart(s.main) {
      LoopPartGains(s, k);
    } else {
      MessagePartGains(s, k);
    }
  }

  // ---------- from the pop to onCall ----------

  lemma CallStarts(s: State)
    requires s.main.CallStart? && ProcessedKnown(s)
    ensures CanRun(s, [MainStep]) && OnCallRuns(Run(s, [MainStep]), s.processed.value)
  {
    FirstStep(s, MainStep, []);
    assert [MainStep] + [] == [MainStep];
  }

  lemma PopLeadsToOnCall(s: State) returns (acts: seq<Action>)
    requires Inv(s) && s.main.LoopPop? && s.queue != []
    ensures CanRun(s, acts) && OnCallRuns(Run(s, acts), s.queue[0])
  {
    var pop := [MainStep, MainStep, MainStep];
    PopIsThreeSteps(s);
    var t := Run(s, pop);
    assert ImageOf(t).processed == Some(s.queue[0]);
    CallStarts(t);
    RunConcat(s, pop, [MainStep]);
    acts := pop + [MainStep];
  }

  // ---------- all the way ----------

  // The loop thread can act after some worker steps, if need be.
  lemma CanActSoon(s: State, k: nat) returns (acts: seq<Action>)
    requires Inv(s) && Going(s) && k < |s.queue|
    ensures CanRun(s, acts)
    ensures var t := Run(s, acts);
            && MainCanAct(t) && Inv(t) && Going(t) && k < |t.queue| && t.queue[k] == s.queue[k]
            && StepsToPop(t.main) <= StepsToPop(s.main)
  {
    acts := [];
    if !MainCanAct(s) {
      acts := HelpersUnblock(s);
    }
    RunKeeps(s, acts);
    WorkersAdd(s, acts);
  }

  lemma StepThen(t: State, more: seq<Action>, m: MsgId) returns (acts: seq<Action>)
    requires Enabled(t, Next(t)) && CanRun(Step(t, Next(t)), more) && OnCallRuns(Run(Step(t, Next(t)), more), m)
    ensures CanRun(t, acts) && OnCallRuns(Run(t, acts), m)
  {
    FirstStep(t, Next(t), more);
    acts := [Next(t)] + more;
  }

  lemma Then(s: State, help: seq<Action>, rest: seq<Action>, m: MsgId) returns (acts: seq<Action>)
    requires CanRun(s, help) && CanRun(Run(s, help), rest) && OnCallRuns(Run(Run(s, help), rest), m)
    ensures CanRun(s, acts) && OnCallRuns(Run(s, acts), m)
  {
    RunConcat(s, help, rest);
    acts := help + rest;
  }

  // After its own step the message is one place further or the pop is nearer.
  lemma OwnStepLeads(t: State, k: nat)
    requires Inv(t) && Going(t) && k < |t.queue| && MainCanAct(t) && !(t.main.LoopPop? && k == 0)
    ensures Enabled(t, Next(t))
    ensures var u, j := Step(t, Next(t)), if t.main.LoopPop? then k - 1 else k;
            && Inv(u) && Going(u) && j < |u.queue| && u.queue[j] == t.queue[k]
            && (j < k || StepsToPop(u.main) < StepsToPop(t.main))
  {
    OwnStepGains(t, k);
    StepKeeps(t, Next(t));
  }

  lemma {:induction false} ReachesOnCall(s: State, k: nat) returns (acts: seq<Action>)
    requires Inv(s) && Going(s) && k < |s.queue|
    ensures CanRun(s, acts) && OnCallRuns(Run(s, acts), s.queue[k])
    decreases k, StepsToPop(s.main)
  {
    var help := CanActSoon(s, k);
    var t := Run(s, help);
    var rest;
    if t.main.LoopPop? && k == 0 {
      rest := PopLeadsToOnCall(t);
    } else {
      OwnStepLeads(t, k);
      var more := ReachesOnCall(Step(t, Next(t)), if t.main.LoopPop? then k - 1 else k);
      rest := StepThen(t, more, s.queue[k]);
    }
    acts := Then(s, help, rest, s.queue[k]);
  }

  // From every reachable state in which run() is under way, whatever is queued
  // and whoever holds which lock, some continuation runs the message's onCall.
  lemma QueuedCanBeProcessed(s: State, m: MsgId)
    requires Reachable(s) && Going(s) && m in s.queue
    ensures exists acts :: CanRun(s, acts) && OnCallRuns(Run(s, acts), m)
  {
    ReachableInv(s);
    var k :| 0 <= k < |s.queue| && s.queue[k] == m;
    var acts := ReachesOnCall(s, k);
  }
}
