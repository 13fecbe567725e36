// Messages leave the queue in the order they were pushed.
module HandOffOrder {
  import opened Common
  import opened HandOff

  // push_back in RunLoop::enqueue, and the pop in run().
  function Pushes(s: State, a: Action): seq<MsgId> {
    if a.WorkerStep? && a.w in s.msgs && s.msgs[a.w].pc.LoopHeld? then [a.w] else []
  }

  function Pops(s: State, a: Action): seq<MsgId> {
    if a.MainStep? && s.main.LoopPop? && s.queue != [] then [s.queue[0]] else []
  }

  function PushedAll(s: State, acts: seq<Action>): seq<MsgId>
    requires CanRun(s, acts)
    decreases acts
  {
    if acts == [] then [] else Pushes(s, acts[0]) + PushedAll(Step(s, acts[0]), acts[1..])
  }

  function PoppedAll(s: State, acts: seq<Action>): seq<MsgId>
    requires CanRun(s, acts)
    decreases acts
  {
    if acts == [] then [] else Pops(s, acts[0]) + PoppedAll(Step(s, acts[0]), acts[1..])
  }

  predicate DestroysOnly(acts: seq<Action>, gone: set<MsgId>) {
    forall i | 0 <= i < |acts| && acts[i].Destroy? :: acts[i].m in gone
  }

  lemma QueueStep(s: State, a: Action)
    requires Enabled(s, a) && !a.Destroy?
    ensures Pops(s, a) + Step(s, a).queue == s.queue + Pushes(s, a)
  {
    if a.WorkerStep? {
      WorkerPushes(s, a.w);
    } else if a.MainStep? {
      MainPops(s);
    } else {
      OthersLeaveQueue(s, a);
    }
  }

  lemma WorkerPushes(s: State, w: MsgId)
    requires WorkerCanStep(s, w)
    ensures StepWorker(s, w).queue == s.queue + Pushes(s, WorkerStep(w))
  {
  }

  lemma MainPops(s: State)
    requires MainCanStep(s)
    ensures Pops(s, MainStep) + StepMain(s).queue == s.queue
  {
    if s.main.LoopPop? {
      assert s.queue != [] ==> [s.queue[0]] + s.queue[1..] == s.queue;
    } else {
      MainLeavesQueue(s);
    }
  }

  lemma MainLeavesQueue(s: State)
    requires MainCanStep(s) && !s.main.LoopPop?
    ensures StepMain(s).queue == s.queue
  {
    if OnMessage(s.main) {
      MessageStepLeavesQueue(s);
    } else {
      LoopStepLeavesQueue(s);
    }
  }

  // Steps of the loop thread that rewrite a message.
  predicate OnMessage(pc: MainPc) {
    pc.CallStart? || pc.TermWant? || pc.TermHeld? || pc.TermMarked? || pc.TermCleared? || pc.ClearWant? ||
    pc.ClearHeld? || pc.Cleared?
  }

  lemma MessageStepLeavesQueue(s: State)
    requires MainCanStep(s) && OnMessage(s.main)
    ensures StepMain(s).queue == s.queue
  {
  }

  lemma LoopStepLeavesQueue(s: State)
    requires MainCanStep(s) && !OnMessage(s.main) && !s.main.LoopPop?
    ensures StepMain(s).queue == s.queue
  {
  }

  lemma OthersLeaveQueue(s: State, a: Action)
    requires Enabled(s, a) && !a.Destroy? && !a.WorkerStep? && !a.MainStep?
    ensures Step(s, a).queue == s.queue
  {
  }

  lemma QueueStepKept(s: State, a: Action, gone: set<MsgId>)
    requires Enabled(s, a) && (a.Destroy? ==> a.m in gone)
    ensures Kept(Pops(s, a), gone) + Kept(Step(s, a).queue, gone) == Kept(s.queue, gone) + Kept(Pushes(s, a), gone)
  {
    if a.Destroy? {
      KeptIgnores(s.queue, gone, a.m);
    } else {
      QueueStep(s, a);
      KeptConcat(Pops(s, a), Step(s, a).queue, gone);
      KeptConcat(s.queue, Pushes(s, a), gone);
    }
  }

  lemma Chain<T>(popped: seq<T>, q: seq<T>, q': seq<T>, pushed: seq<T>, more: seq<T>, left: seq<T>, last: seq<T>)
    requires popped + q' == q + pushed && left + last == q' + more
    ensures (popped + left) + last == q + (pushed + more)
  {
    assert (popped + left) + last == popped + (left + last);
    assert popped + (q' + more) == (popped + q') + more;
    assert (q + pushed) + more == q + (pushed + more);
  }

  // Whatever was destroyed left out: what the loop has taken, followed by what
  // is queued, is what was queued at first followed by what was pushed.
  lemma {:induction false} QueueIsFifo(s: State, acts: seq<Action>, gone: set<MsgId>)
    requires CanRun(s, acts) && DestroysOnly(acts, gone)
    ensures Kept(PoppedAll(s, acts), gone) + Kept(Run(s, acts).queue, gone)
            == Kept(s.queue, gone) + Kept(PushedAll(s, acts), gone)
    decreases acts
  {
    if acts != [] {
      var a, t, rest := acts[0], Step(s, acts[0]), acts[1..];
      assert forall i :: 0 <= i < |rest| ==> rest[i] == acts[i + 1];
      QueueStepKept(s, a, gone);
      QueueIsFifo(t, rest, gone);
      KeptConcat(Pops(s, a), PoppedAll(t, rest), gone);
      KeptConcat(Pushes(s, a), PushedAll(t, rest), gone);
      Chain(Kept(Pops(s, a), gone), Kept(s.queue, gone), Kept(t.queue, gone), Kept(Pushes(s, a), gone),
            Kept(PushedAll(t, rest), gone), Kept(PoppedAll(t, rest), gone), Kept(Run(t, rest).queue, gone));
    }
  }
}
