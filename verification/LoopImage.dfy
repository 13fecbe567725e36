// What RunLoop's own fields show of a hand-off state, and what the steps of
// the hand-off do to them.  The methods of the class RunLoop are held against
// these functions, and the functions against the steps.
module LoopImage {
  import opened Common
  import opened HandOff

  datatype Image = Image(queue: seq<MsgId>, processed: Option<MsgId>, flag: bool, msgCnt: int, running: bool)

  function ImageOf(s: State): Image {
    Image(s.queue, s.processed, s.loopFlag, s.msgCnt, s.running)
  }

  function Enqueued(i: Image, m: MsgId): Image {
    i.(queue := i.queue + [m], flag := true)
  }

  function Popped(i: Image): Image {
    if i.queue == [] then i.(flag := false)
    else i.(queue := i.queue[1..], processed := Some(i.queue[0]), flag := |i.queue| > 1)
  }

  function Dequeued(i: Image, m: MsgId): Image {
    i.(queue := Without(i.queue, m), processed := if i.processed == Some(m) then None else i.processed)
  }

  function Registered(i: Image, change: int): Image {
    i.(msgCnt := i.msgCnt + change)
  }

  function Stopped(i: Image): Image {
    i.(running := false)
  }

  function OwnSteps(m: MsgId): seq<Action> {
    [WorkerStep(m), WorkerStep(m), WorkerStep(m), WorkerStep(m)]
  }

  lemma FirstStep(s: State, a: Action, rest: seq<Action>)
    requires Enabled(s, a) && CanRun(Step(s, a), rest)
    ensures CanRun(s, [a] + rest) && Run(s, [a] + rest) == Run(Step(s, a), rest)
  {
    assert ([a] + rest)[1..] == rest;
  }

  function AfterEnqueueStep(i: Image, m: MsgId, pc: WorkerPc): Image {
    if pc.LoopHeld? then i.(queue := i.queue + [m])
    else if pc.Pushed? then i.(flag := i.queue != [])
    else i
  }

  lemma EnqueueStep(s: State, m: MsgId)
    requires m in s.msgs && InEnqueue(s.msgs[m].pc) && WorkerCanStep(s, m)
    ensures var t := StepWorker(s, m);
            && ImageOf(t) == AfterEnqueueStep(ImageOf(s), m, s.msgs[m].pc)
            && t.msgs == s.msgs[m := Advance(s.msgs[m])]
            && (s.msgs[m].pc.Signalled? ==> t.loopMutex == LoopFree)
  {
  }

  // The push and the wake-up, from inside the mutex.
  lemma LastThreeSteps(s: State, m: MsgId)
    requires m in s.msgs && s.msgs[m].pc.LoopHeld?
    ensures var acts := [WorkerStep(m), WorkerStep(m), WorkerStep(m)];
            CanRun(s, acts) &&
            var t := Run(s, acts);
            && ImageOf(t) == Enqueued(ImageOf(s), m) && t.loopMutex == LoopFree
            && t.msgs == s.msgs[m := s.msgs[m].(pc := Called)]
  {
    var a := WorkerStep(m);
    EnqueueStep(s, m);
    var s1 := StepWorker(s, m);
    EnqueueStep(s1, m);
    var s2 := StepWorker(s1, m);
    EnqueueStep(s2, m);
    FirstStep(s2, a, []);
    FirstStep(s1, a, [a]);
    FirstStep(s, a, [a, a]);
    assert [a] + [] == [a] && [a] + [a] == [a, a] && [a] + [a, a] == [a, a, a];
  }

  // RunLoop::enqueue is four steps of the worker: it takes the mutex, pushes,
  // sets the flag and lets go.
  lemma EnqueueIsFourSteps(s: State, m: MsgId)
    requires m in s.msgs && s.msgs[m].pc.Flagged? && s.loopMutex.LoopFree?
    ensures CanRun(s, OwnSteps(m))
    ensures var t := Run(s, OwnSteps(m));
            && ImageOf(t) == Enqueued(ImageOf(s), m) && t.loopMutex == LoopFree
            && t.msgs == s.msgs[m := s.msgs[m].(pc := Called)]
  {
    var a := WorkerStep(m);
    EnqueueStep(s, m);
    LastThreeSteps(StepWorker(s, m), m);
    FirstStep(s, a, [a, a, a]);
    assert [a] + [a, a, a] == OwnSteps(m);
  }

  // The first thing run() does with the mutex: pop, set, let go.
  lemma PopIsThreeSteps(s: State)
    requires s.main.LoopPop? && s.processed.None?
    ensures CanRun(s, [MainStep, MainStep, MainStep])
    ensures var t := Run(s, [MainStep, MainStep, MainStep]);
            ImageOf(t) == Popped(ImageOf(s)) && t.loopMutex == LoopFree && t.msgs == s.msgs && t.main.CallStart?
  {
    var s1 := StepMain(s);
    var s2 := StepMain(s1);
    FirstStep(s2, MainStep, []);
    FirstStep(s1, MainStep, [MainStep]);
    FirstStep(s, MainStep, [MainStep, MainStep]);
    assert [MainStep] + [] == [MainStep] && [MainStep] + [MainStep] == [MainStep, MainStep];
    assert [MainStep] + [MainStep, MainStep] == [MainStep, MainStep, MainStep];
  }

  // What client code does to the loop, in one step each.
  lemma ClientStepsShow(s: State, a: Action)
    requires Enabled(s, a) && s.main.Client?
    ensures a.Create? ==> ImageOf(Step(s, a)) == Registered(ImageOf(s), 1)
    ensures a.Destroy? ==> ImageOf(Step(s, a)) == Registered(Dequeued(ImageOf(s), a.m), -1)
    ensures a.Stop? ==> ImageOf(Step(s, a)) == Stopped(ImageOf(s))
  {
  }
}
