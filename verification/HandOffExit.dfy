// When RunLoop::run returns: what the exit check at the bottom of the loop
// decides, said of the messages that live and the calls of stop().
module HandOffExit {
  import opened HandOff
  import opened HandOffInvariant
  import opened HandOffMain
  import opened HandOffTheorems

  // ---------- the flag `running` ----------

  predicate StopHolds(s: State) {
    s.stopped ==> !s.running
  }

  lemma WorkerLeavesRunning(s: State, w: MsgId)
    requires WorkerCanStep(s, w)
    ensures StepWorker(s, w).running == s.running && StepWorker(s, w).stopped == s.stopped
  {
  }

  lemma MainKeepsStop(s: State)
    requires StopHolds(s) && MainCanStep(s)
    ensures StopHolds(StepMain(s))
  {
  }

  lemma StepKeepsStop(s: State, a: Action)
    requires StopHolds(s) && Enabled(s, a)
    ensures StopHolds(Step(s, a))
  {
    if a.WorkerStep? {
      WorkerLeavesRunning(s, a.w);
    } else if a.MainStep? {
      MainKeepsStop(s);
    }
  }

  lemma {:induction false} RunKeepsStop(s: State, acts: seq<Action>)
    requires StopHolds(s) && CanRun(s, acts)
    ensures StopHolds(Run(s, acts))
    decreases acts
  {
    if acts != [] {
      StepKeepsStop(s, acts[0]);
      RunKeepsStop(Step(s, acts[0]), acts[1..]);
    }
  }

  lemma ReachableStop(s: State)
    requires Reachable(s)
    ensures StopHolds(s)
  {
    var acts :| CanRun(Initial, acts) && Run(Initial, acts) == s;
    RunKeepsStop(Initial, acts);
  }

  // ---------- the exit check ----------

  lemma TwoSteps(s: State)
    requires MainCanStep(s) && MainCanStep(StepMain(s))
    ensures CanRun(s, [MainStep, MainStep]) && Run(s, [MainStep, MainStep]) == StepMain(StepMain(s))
  {
    var t := StepMain(s);
    assert [MainStep, MainStep][1..] == [MainStep] && [MainStep][1..] == [];
    assert Run(t, [MainStep]) == StepMain(t);
  }

  // The loop thread at its exit check: its next two steps end run() just when
  // stop() was called, or no timer is set and no message lives; else they
  // begin another round.
  lemma RunReturnsIff(s: State)
    requires Reachable(s) && s.main == ExitCheck
    ensures CanRun(s, [MainStep, MainStep])
    ensures var t := Run(s, [MainStep, MainStep]);
            && (t.main == Done <==> s.stopped || (s.timers == 0 && Live(s) == {}))
            && (t.main != Done ==> t.main == WantLoop(s.timers != 0) && t.running)
            && t.msgs == s.msgs
  {
    ReachableStop(s);
    ReachableInv(s);
    QueuedAreRegistered(s);
    TwoSteps(s);
  }
}
