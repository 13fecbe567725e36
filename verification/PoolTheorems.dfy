// What the resolver pool guarantees, over every run of starts, cancellations,
// lookups and re-entrant delegates.  `clears` says whether cancel_work forgets
// the request, as intended; a theorem that does not fix it holds both ways.
module PoolTheorems {
  import opened Common
  import opened Pool
  import opened PoolBoard
  import opened PoolHistory
  import opened PoolRouting

  function One(p: bool): nat {
    if p then 1 else 0
  }

  lemma PoolPartition(clears: bool, s: State)
    requires Reachable(clears, s)
    ensures var b := s.board;
            && NoDuplicates(b.free) && NoDuplicates(b.working) && (forall w | w in b.free :: w !in b.working)
            && |b.free| + |b.working| in {0, 2}
            && (forall w, v | w in b.working && v in b.working && w != v ::
                  AddrOf(b, w).Some? && AddrOf(b, w) != AddrOf(b, v) && AddrOf(b, w).value !in b.waiting)
    ensures forall r | r in s.started && r !in s.dropped && r !in s.cancelled ::
              One(r in s.board.waiting) + One(Works(s.board, r)) + One(r in s.told) == 1
  {
    ReachableInv(clears, s);
    PlacedDistinct(s);
    assert forall w | w in s.board.working :: w in Members(s.board.working);
    forall r | r in s.started && r !in s.dropped && r !in s.cancelled
      ensures One(r in s.board.waiting) + One(Works(s.board, r)) + One(r in s.told) == 1
    {
      assert r in Kept(s.started, s.dropped);
      assert r in s.given || r in s.board.waiting;
    }
  }

  // Requests go to workers in the order they came, those withdrawn while
  // waiting left out.
  lemma ArrivalOrder(clears: bool, s: State)
    requires Reachable(clears, s)
    ensures Kept(s.started, s.dropped) == s.given + s.board.waiting && NoDuplicates(s.started)
  {
    ReachableInv(clears, s);
  }

  lemma NobodyIdles(clears: bool, s: State)
    requires Reachable(clears, s) && s.cancelled == {} && s.main.Idle?
    ensures s.board.waiting == [] || s.board.free == []
  {
    ReachableInv(clears, s);
  }

  // cancel_resolve does not call assign_work: a worker idles beside waiting
  // requests just when the cancelled request was in flight and others waited.
  lemma CancelIdlesIff(clears: bool, s: State, r: Request)
    requires Reachable(clears, s) && r in s.alive && (s.board.waiting == [] || s.board.free == [])
    ensures var b := Step(clears, s, Destroy(r)).board;
            b.waiting != [] && b.free != [] <==> Works(s.board, r) && s.board.waiting != []
  {
    ReachableInv(clears, s);
    CancelledKeeps(clears, s.board, r);
    if r in s.board.waiting {
      assert !Works(s.board, r);
    } else {
      ReturnFrees(clears, s.board, r);
    }
  }

  // ---------- which answer reaches which request ----------

  // The request whose delegate onCall is about to call, if any.
  function Tells(s: State, a: Action): Option<Request> {
    if a.Deliver? && Accepts(s, a.w) then AddrOf(s.board, a.w) else None
  }

  // The request object onCall is about to look at.
  function Reads(s: State, a: Action): Option<Request> {
    if a.Deliver? then AddrOf(s.board, a.w) else None
  }

  // An object that is alive, waits for this worker's answer and gets one to
  // its own question, kept until the delegate returns.
  ghost predicate RightDelivery(s: State, w: WorkerId, r: Request) {
    && w in s.board.working && AddrOf(s.board, w) == Some(r) && r in s.alive && r !in s.told
    && w in s.threads && s.threads[w].res.Some?
    && var info := s.threads[w].res.value;
    && info.id < |s.asked| && s.asked[info.id] == Asked(w, r.hs)
    && (info.found ==> info.id !in s.freed)
  }

  lemma RightAnswer(clears: bool, s: State, w: WorkerId, r: Request)
    requires Inv(clears, s) && Enabled(s, Deliver(w)) && Tells(s, Deliver(w)) == Some(r)
    ensures RightDelivery(s, w, r) <==> w in s.board.working
  {
    assert ThreadOk(s, w, s.threads[w]);
    if w in s.board.working {
      assert Works(s.board, r);
    }
  }

  lemma EveryTellingIsRight(s: State, a: Action, r: Request)
    requires Reachable(true, s) && Enabled(s, a) && Tells(s, a) == Some(r)
    ensures RightDelivery(s, a.w, r)
  {
    ReachableInv(true, s);
    RightAnswer(true, s, a.w, r);
    assert a.w in s.board.addr;
    assert a.w in Members(s.board.free) + Members(s.board.working);
  }

  lemma ToldAtMostOnce(s: State)
    requires Reachable(true, s)
    ensures NoDuplicates(s.told) && forall r | r in s.told :: r !in s.cancelled && r !in s.dropped
  {
    ReachableInv(true, s);
    PlacedDistinct(s);
  }

  // Who is gone stays gone, and on_resolved calls come from onCall only.
  lemma GoneStays(clears: bool, s: State, a: Action, r: Request)
    requires Enabled(s, a) && r in s.started && r !in s.alive
    ensures var t := Step(clears, s, a);
            && r in t.started && r !in t.alive
            && (r in t.told <==> r in s.told || Tells(s, a) == Some(r))
  {
  }

  lemma GoneIsNotTold(s: State, a: Action, r: Request)
    requires Inv(true, s) && Enabled(s, a) && r !in s.alive
    ensures Tells(s, a) != Some(r)
  {
    if a.Deliver? {
      assert a.w in Members(s.board.free) + Members(s.board.working);
      assert AddrOf(s.board, a.w) == Some(r) ==> Works(s.board, r);
    }
  }

  // No on_resolved for a request that is gone.
  lemma {:induction false} NeverToldAfterDestroy(s: State, acts: seq<Action>, r: Request)
    requires Inv(true, s) && CanRun(true, s, acts) && r in s.started && r !in s.alive
    ensures r in Run(true, s, acts).told <==> r in s.told
    decreases acts
  {
    if acts != [] {
      StepKeeps(true, s, acts[0]);
      GoneStays(true, s, acts[0], r);
      GoneIsNotTold(s, acts[0], r);
      NeverToldAfterDestroy(Step(true, s, acts[0]), acts[1..], r);
    }
  }

  // The same of every reachable state and every continuation.
  lemma GoneIsNeverTold(s: State, acts: seq<Action>, r: Request)
    requires Reachable(true, s) && CanRun(true, s, acts) && r in s.started && r !in s.alive
    ensures r in Run(true, s, acts).told <==> r in s.told
  {
    ReachableInv(true, s);
    NeverToldAfterDestroy(s, acts, r);
  }

  // While the delegate runs, whatever threads and clients do, the answer it
  // was given is neither replaced nor freed.
  lemma AnswerOutlivesCallback(clears: bool, s: State)
    requires Reachable(clears, s) && s.main.Telling?
    ensures var w, info := s.main.w, s.main.info;
            && w in s.threads && info.Some? && s.threads[w].res == info
            && info.value.id < |s.asked| && s.asked[info.value.id] == Asked(w, s.main.who.hs)
            && (info.value.found ==> info.value.id !in s.freed)
  {
    ReachableInv(clears, s);
    assert ThreadOk(s, s.main.w, s.threads[s.main.w]);
  }

  // ---------- nobody is forgotten ----------

  predicate OwnStep(a: Action, w: WorkerId) {
    match a
    case TakeWork(v) => v == w
    case Lookup(v, _) => v == w
    case Acquire(v) => v == w
    case FreeOld(v) => v == w
    case Publish(v) => v == w
    case Deliver(v) => v == w
    case _ => false
  }

  predicate OwnSteps(acts: seq<Action>, w: WorkerId) {
    forall i :: 0 <= i < |acts| ==> OwnStep(acts[i], w)
  }

  lemma FirstStep(clears: bool, s: State, a: Action, t: State, rest: seq<Action>)
    requires Enabled(s, a) && Step(clears, s, a) == t && CanRun(clears, t, rest)
    ensures CanRun(clears, s, [a] + rest) && Run(clears, s, [a] + rest) == Run(clears, t, rest)
  {
    assert ([a] + rest)[1..] == rest;
  }

  lemma Prepend(clears: bool, s: State, a: Action, rest: seq<Action>, w: WorkerId)
    requires Enabled(s, a) && CanRun(clears, Step(clears, s, a), rest) && OwnStep(a, w) && OwnSteps(rest, w)
    ensures CanRun(clears, s, [a] + rest) && OwnSteps([a] + rest, w)
    ensures Run(clears, s, [a] + rest) == Run(clears, Step(clears, s, a), rest)
  {
    FirstStep(clears, s, a, Step(clears, s, a), rest);
  }

  // How many steps of its own w is away from a full mailbox.
  function StepsToPublish(t: Thread): nat {
    if t.full then 0
    else match t.pc
      case Sleeping => 5
      case Looking(_) => 4
      case Found(_, _) => 3
      case Owning(_, _) => 2
      case Dropped(_, _) => 1
  }

  function NextStep(w: WorkerId, t: Thread): Action {
    match t.pc
    case Sleeping => TakeWork(w)
    case Looking(_) => Lookup(w, true)
    case Found(_, _) => Acquire(w)
    case Owning(_, _) => FreeOld(w)
    case Dropped(_, _) => Publish(w)
  }

  lemma OneStepCloser(clears: bool, s: State, w: WorkerId)
    requires w in s.threads && !s.threads[w].full && Due(s, w) != []
    ensures var a := NextStep(w, s.threads[w]);
            && Enabled(s, a) && OwnStep(a, w)
            && var t := Step(clears, s, a);
            && w in t.threads && StepsToPublish(t.threads[w]) < StepsToPublish(s.threads[w])
            && t.main == s.main && t.board == s.board.(need := t.board.need)
            && t.alive == s.alive && t.told == s.told && t.started == s.started && t.cancelled == s.cancelled
  {
  }

  // A worker that owes an answer gets as far as posting one on its own.
  lemma {:induction false} WorkerPosts(clears: bool, s: State, w: WorkerId) returns (acts: seq<Action>)
    requires Inv(clears, s) && w in s.threads && s.main.Idle? && Due(s, w) != []
    ensures CanRun(clears, s, acts) && OwnSteps(acts, w) && |acts| <= 5
    ensures var t := Run(clears, s, acts);
            && Inv(clears, t) && Enabled(t, Deliver(w)) && Due(t, w) == Due(s, w)
            && t.main == s.main && t.board == s.board.(need := t.board.need)
            && t.alive == s.alive && t.told == s.told && t.started == s.started && t.cancelled == s.cancelled
    ensures |acts| <= StepsToPublish(s.threads[w])
    decreases StepsToPublish(s.threads[w])
  {
    if s.threads[w].full {
      acts := [];
    } else {
      var a := NextStep(w, s.threads[w]);
      OneStepCloser(clears, s, w);
      StepKeeps(clears, s, a);
      OwnStepDues(clears, s, a);
      var rest := WorkerPosts(clears, Step(clears, s, a), w);
      Prepend(clears, s, a, rest, w);
      acts := [a] + rest;
    }
  }

  lemma {:induction false} RunConcat(clears: bool, s: State, xs: seq<Action>, ys: seq<Action>)
    requires CanRun(clears, s, xs) && CanRun(clears, Run(clears, s, xs), ys)
    ensures CanRun(clears, s, xs + ys) && Run(clears, s, xs + ys) == Run(clears, Run(clears, s, xs), ys)
    decreases xs
  {
    if xs == [] {
      assert xs + ys == ys;
    } else {
      assert (xs + ys)[1..] == xs[1..] + ys;
      RunConcat(clears, Step(clears, s, xs[0]), xs[1..], ys);
    }
  }

  // Every request a worker has is told its answer by steps of that worker and
  // of the loop alone, whatever stale lookups come first.
  lemma {:induction false} WorkedIsTold(clears: bool, s: State, w: WorkerId) returns (acts: seq<Action>)
    requires Inv(clears, s) && s.main.Idle? && w in s.board.working
    ensures CanRun(clears, s, acts) && OwnSteps(acts, w)
    ensures AddrOf(s.board, w).Some? && AddrOf(s.board, w).value in Run(clears, s, acts).told
    decreases |Due(s, w)|
  {
    assert w in Members(s.board.working) && BusyOwes(s, w);
    var posts := WorkerPosts(clears, s, w);
    var t := Run(clears, s, posts);
    var rest := [];
    if Accepts(t, w) {
      TellingTells(clears, t, w);
    } else {
      StepKeeps(clears, t, Deliver(w));
      IgnoredPops(t, w);
      rest := WorkedIsTold(clears, Ignored(t, w), w);
    }
    acts := ThenDeliver(clears, s, posts, rest, w);
  }

  lemma ThenDeliver(clears: bool, s: State, posts: seq<Action>, rest: seq<Action>, w: WorkerId)
    returns (acts: seq<Action>)
    requires CanRun(clears, s, posts) && OwnSteps(posts, w) && OwnSteps(rest, w)
    requires var t := Run(clears, s, posts); Enabled(t, Deliver(w)) && CanRun(clears, Step(clears, t, Deliver(w)), rest)
    ensures CanRun(clears, s, acts) && OwnSteps(acts, w)
    ensures Run(clears, s, acts) == Run(clears, Step(clears, Run(clears, s, posts), Deliver(w)), rest)
  {
    Prepend(clears, Run(clears, s, posts), Deliver(w), rest, w);
    RunConcat(clears, s, posts, [Deliver(w)] + rest);
    acts := posts + ([Deliver(w)] + rest);
  }

  lemma TellingTells(clears: bool, s: State, w: WorkerId)
    requires Enabled(s, Deliver(w)) && Accepts(s, w)
    ensures AddrOf(s.board, w).value in Step(clears, s, Deliver(w)).told
  {
  }

  lemma NobodyIsForgotten(clears: bool, s: State, r: Request)
    requires Reachable(clears, s) && s.main.Idle? && Works(s.board, r)
    ensures exists acts, w :: CanRun(clears, s, acts) && OwnSteps(acts, w) && r in Run(clears, s, acts).told
  {
    ReachableInv(clears, s);
    var w :| w in s.board.working && AddrOf(s.board, w) == Some(r);
    var acts := WorkedIsTold(clears, s, w);
  }

  // ---------- as written ----------

  // Until a request is cancelled in flight, the code as written routes right.
  lemma AsWrittenRight(s: State, w: WorkerId)
    requires Reachable(false, s) && s.cancelled == {} && Enabled(s, Deliver(w))
    ensures Tells(s, Deliver(w)).Some? && RightDelivery(s, w, Tells(s, Deliver(w)).value)
  {
    ReachableInv(false, s);
    if !Accepts(s, w) {
      IgnoredWasCancelled(false, s, w);
    }
    assert w in Members(s.board.free) + Members(s.board.working);
    assert OwesNoMore(s, w);
    RightAnswer(false, s, w, AddrOf(s.board, w).value);
  }

  // In general: onCall looks at a request that is not waiting for this worker
  // just when the answer arrives for a free worker.
  lemma AsWrittenStaleIff(s: State, w: WorkerId)
    requires Reachable(false, s) && Enabled(s, Deliver(w))
    ensures var r := Reads(s, Deliver(w));
            r.Some? && (Works(s.board, r.value) <==> w !in s.board.free)
  {
    ReachableInv(false, s);
    assert w in Members(s.board.free) + Members(s.board.working);
    assert Due(s, w) != [] && AddrOf(s.board, w).Some?;
    var r := AddrOf(s.board, w).value;
    if w in s.board.free {
      forall v | v in s.board.working
        ensures AddrOf(s.board, v) != Some(r)
      {
        assert v in Members(s.board.working) && v != w;
      }
    }
  }

  // No worker that last had r owes an answer.
  predicate Silent(s: State, r: Request) {
    forall w | w in s.threads && AddrOf(s.board, w) == Some(r) :: Due(s, w) == []
  }

  // Some continuation makes onCall look at r.
  ghost predicate CanBeRead(clears: bool, s: State, r: Request) {
    exists acts, w :: CanRun(clears, s, acts) && ReadNext(Run(clears, s, acts), w, r)
  }

  predicate ReadNext(s: State, w: WorkerId, r: Request) {
    Enabled(s, Deliver(w)) && Reads(s, Deliver(w)) == Some(r)
  }

  lemma AddrAfterAssign(b: Board<WorkerId>, w0: WorkerId, w1: WorkerId, w: WorkerId)
    requires w0 != w1
    ensures var c, d := Populated(b, w0, w1), Assigned(Populated(b, w0, w1));
            w in d.addr && d.addr[w].Some? ==>
              || (c.free != [] && c.waiting != [] && d.addr[w] == Some(c.waiting[0]))
              || (w in b.addr && d.addr[w] == b.addr[w] && NeedOf(d, w) == NeedOf(c, w))
  {
  }

  lemma SilentAssign(clears: bool, s: State, r: Request)
    requires ListsInv(clears, s) && r !in s.board.waiting && Silent(s, r)
    ensures Silent(AssignWork(s), r)
  {
    var t := AssignWork(s);
    AssignBoard(clears, s);
    PopulatedKeeps(clears, s.board, 0, 1);
    forall w | w in t.threads && AddrOf(t.board, w) == Some(r)
      ensures Due(t, w) == []
    {
      AddrAfterAssign(s.board, 0, 1, w);
      assert w in s.threads && AddrOf(s.board, w) == Some(r);
      assert w in Members(s.board.free) + Members(s.board.working);
      DueFrame(s, t, w);
    }
  }

  lemma SilentDeliver(clears: bool, s: State, w: WorkerId, r: Request)
    requires ListsInv(clears, s) && Enabled(s, Deliver(w)) && Silent(s, r)
    ensures Silent(Step(clears, s, Deliver(w)), r)
  {
    if Accepts(s, w) {
      var q := AddrOf(s.board, w).value;
      ToldPops(clears, s, w, q);
      ReturnFrees(clears, s.board, q);
    } else {
      IgnoredPops(s, w);
    }
  }

  lemma SilentFrame(s: State, t: State, r: Request)
    requires Silent(s, r) && t.threads.Keys == s.threads.Keys
    requires forall w | w in s.threads :: Due(t, w) == Due(s, w)
    requires forall w | AddrOf(t.board, w) == Some(r) :: AddrOf(s.board, w) == Some(r)
    ensures Silent(t, r)
  {
  }

  lemma SilentDestroy(clears: bool, s: State, q: Request, r: Request)
    requires ListsInv(clears, s) && q in s.alive && Silent(s, r)
    ensures Silent(Step(clears, s, Destroy(q)), r)
  {
    CancelledForgets(clears, s.board, q);
    SilentForgets(s, Step(clears, s, Destroy(q)), r);
  }

  lemma SilentForgets(s: State, t: State, r: Request)
    requires Silent(s, r) && t.threads == s.threads && t.main == s.main && t.board.need == s.board.need
    requires t.board.addr.Keys == s.board.addr.Keys
    requires forall w | w in s.board.addr :: t.board.addr[w] == s.board.addr[w] || t.board.addr[w] == None
    ensures Silent(t, r)
  {
    forall w | w in s.threads
      ensures Due(t, w) == Due(s, w)
    {
      DueFrame(s, t, w);
    }
    SilentFrame(s, t, r);
  }

  lemma CancelledForgets(clears: bool, b: Board<WorkerId>, q: Request)
    requires BoardInv(clears, b)
    ensures var c := Cancelled(clears, b, q);
            c.need == b.need && c.addr.Keys == b.addr.Keys
            && forall w | w in b.addr :: c.addr[w] == b.addr[w] || c.addr[w] == None
  {
    if q !in b.waiting {
      ReturnFrees(clears, b, q);
    }
  }

  lemma SilentStart(clears: bool, s: State, q: Request, r: Request)
    requires ListsInv(clears, s) && q !in s.started && r in s.started && r !in s.board.waiting && Silent(s, r)
    ensures Silent(AssignWork(Queued(s, q)), r)
  {
    QueuedKeeps(clears, s, q);
    forall w | w in s.threads
      ensures Due(Queued(s, q), w) == Due(s, w)
    {
      QueuedDue(s, q, w);
    }
    SilentFrame(s, Queued(s, q), r);
    SilentAssign(clears, Queued(s, q), r);
  }

  lemma SilentReturn(clears: bool, s: State, r: Request)
    requires ListsInv(clears, s) && AnswersInv(s) && Enabled(s, Return) && r !in s.board.waiting && Silent(s, r)
    ensures Silent(AssignWork(ToldAll(s)), r)
  {
    ToldAllKeeps(clears, s);
    assert ToldAll(s).threads.Keys == s.threads.Keys;
    forall w | w in s.threads
      ensures Due(ToldAll(s), w) == Due(s, w)
    {
      ToldAllDue(s, w);
    }
    SilentFrame(s, ToldAll(s), r);
    SilentAssign(clears, ToldAll(s), r);
  }

  lemma SilentStep(clears: bool, s: State, a: Action, r: Request)
    requires Inv(clears, s) && Enabled(s, a) && r in s.started && r !in s.alive && Silent(s, r)
    ensures Silent(Step(clears, s, a), r)
  {
    if a.Start? {
      SilentStart(clears, s, a.r, r);
    } else if a.Return? {
      SilentReturn(clears, s, r);
    } else if a.Destroy? {
      SilentDestroy(clears, s, a.r, r);
    } else if a.Deliver? {
      SilentDeliver(clears, s, a.w, r);
    } else {
      OwnStepDues(clears, s, a);
      OwnStepFrame(clears, s, a);
    }
  }

  lemma SilentGoesOn(clears: bool, s: State, a: Action, r: Request)
    requires Inv(clears, s) && Enabled(s, a) && r in s.started && r !in s.alive && Silent(s, r)
    ensures var t := Step(clears, s, a); Inv(clears, t) && r in t.started && r !in t.alive && Silent(t, r)
  {
    StepKeeps(clears, s, a);
    SilentStep(clears, s, a, r);
    GoneStays(clears, s, a, r);
  }

  lemma SilentIsNotRead(s: State, w: WorkerId, r: Request)
    requires Silent(s, r)
    ensures !ReadNext(s, w, r)
  {
  }

  lemma {:induction false} SilentStays(clears: bool, s: State, acts: seq<Action>, w: WorkerId, r: Request)
    requires Inv(clears, s) && CanRun(clears, s, acts) && r in s.started && r !in s.alive && Silent(s, r)
    ensures !ReadNext(Run(clears, s, acts), w, r)
    decreases acts
  {
    if acts == [] {
      SilentIsNotRead(s, w, r);
    } else {
      SilentGoesOn(clears, s, acts[0], r);
      SilentStays(clears, Step(clears, s, acts[0]), acts[1..], w, r);
    }
  }

  // As written, a request that is gone is read again in some continuation just
  // when a worker that last had it still owes an answer.
  lemma AsWrittenDeadReadIff(s: State, r: Request)
    requires Reachable(false, s) && s.main.Idle? && r in s.started && r !in s.alive
    ensures CanBeRead(false, s, r) <==> exists w | w in s.threads :: AddrOf(s.board, w) == Some(r) && Due(s, w) != []
  {
    ReachableInv(false, s);
    if w :| w in s.threads && AddrOf(s.board, w) == Some(r) && Due(s, w) != [] {
      var acts := WorkerPosts(false, s, w);
      assert ReadNext(Run(false, s, acts), w, r);
    } else {
      forall acts, w | CanRun(false, s, acts)
        ensures !ReadNext(Run(false, s, acts), w, r)
      {
        SilentStays(false, s, acts, w, r);
      }
    }
  }

  // So cancelling a request in flight always leaves it exposed.
  lemma AsWrittenInFlightCancel(s: State, r: Request)
    requires Reachable(false, s) && s.main.Idle? && r in s.alive && Works(s.board, r)
    ensures CanBeRead(false, Step(false, s, Destroy(r)), r)
  {
    ReachableInv(false, s);
    var t := Step(false, s, Destroy(r));
    var w :| w in s.board.working && AddrOf(s.board, w) == Some(r);
    assert BusyOwes(s, w) && w in Members(s.board.working);
    ReturnFrees(false, s.board, r);
    ForgetfulDues(s, t);
    assert AddrOf(t.board, w) == Some(r) by {
      var k :| 0 <= k < |s.board.working| && t.board == Freed(false, s.board, k);
    }
    assert r in s.started;
    StepKeeps(false, s, Destroy(r));
    var acts := WorkerPosts(false, t, w);
    assert ReadNext(Run(false, t, acts), w, r);
  }

  // The first request has been started, then destroyed.
  function Begun(r: Request): State {
    State(Board([0], [1], [], map[0 := None, 1 := Some(r)], map[0 := [], 1 := [r.hs]]),
          map[0 := NewThread, 1 := NewThread], Idle, {r}, [], {}, [r], [r], [], {}, {})
  }

  function Abandoned(r: Request): State {
    var s := Begun(r);
    s.(board := s.board.(free := [0, 1], working := []), alive := {}, cancelled := {r})
  }

  lemma StartBegins(r: Request)
    ensures Step(false, Initial, Start(r)) == Begun(r)
  {
    var q := Queued(Initial, r);
    var b := Populated(q.board, 0, 1);
    assert q.board.waiting == [r] && q.started == [r];
    assert b == Board([0, 1], [], [r], map[0 := None, 1 := None], map[0 := [], 1 := []]);
    assert [0, 1][..1] == [0] && [r][1..] == [] && b.working + [1] == [1];
    assert NeedOf(b, 1) + [r.hs] == [r.hs];
    assert b.addr[1 := Some(r)] == Begun(r).board.addr && b.need[1 := [r.hs]] == Begun(r).board.need;
    assert q.given + [r] == [r];
  }

  lemma DestroyAbandons(r: Request)
    ensures Enabled(Begun(r), Destroy(r)) && Step(false, Begun(r), Destroy(r)) == Abandoned(r)
  {
    var b := Begun(r).board;
    assert b.working[0] in b.working && AddrOf(b, b.working[0]) == Some(r);
    assert SwapRemove(b.working, 0) == [] && b.free + [1] == [0, 1];
    var c := Freed(false, b, 0);
    assert c == Abandoned(r).board;
    assert ReturnFrom(false, b, r, 0) == ReturnFrom(false, c, r, 0) == c;
    assert Begun(r).cancelled + {r} == {r} && Begun(r).alive - {r} == {};
  }

  predicate TellsDead(s: State, w: WorkerId, r: Request) {
    Enabled(s, Deliver(w)) && Tells(s, Deliver(w)) == Some(r) && r !in s.alive
  }

  lemma AbandonedRuns(r: Request)
    ensures CanRun(false, Initial, [Start(r), Destroy(r)])
    ensures Run(false, Initial, [Start(r), Destroy(r)]) == Abandoned(r)
  {
    StartBegins(r);
    DestroyAbandons(r);
    FirstStep(false, Begun(r), Destroy(r), Abandoned(r), []);
    FirstStep(false, Initial, Start(r), Begun(r), [Destroy(r)]);
  }

  // Every request can meet that fate: it is started and destroyed, its worker
  // runs, and the delegate of the dead request is called.
  lemma DeadRequestIsTold(r: Request)
    ensures exists acts, w :: CanRun(false, Initial, acts) && TellsDead(Run(false, Initial, acts), w, r)
  {
    var acts := AbandonedPosts(r);
    AbandonedRuns(r);
    RunConcat(false, Initial, [Start(r), Destroy(r)], acts);
    PostedIsTold(Run(false, Abandoned(r), acts), 1, r);
  }

  lemma AbandonedPosts(r: Request) returns (acts: seq<Action>)
    ensures CanRun(false, Abandoned(r), acts)
    ensures var s := Run(false, Abandoned(r), acts);
            Enabled(s, Deliver(1)) && Due(s, 1) == [r.hs] && AddrOf(s.board, 1) == Some(r) && r !in s.alive
  {
    AbandonedRuns(r);
    ReachableInv(false, Abandoned(r));
    AbandonedDue(r);
    acts := WorkerPosts(false, Abandoned(r), 1);
  }

  lemma AbandonedDue(r: Request)
    ensures Due(Abandoned(r), 1) == [r.hs] && AddrOf(Abandoned(r).board, 1) == Some(r)
  {
  }

  lemma PostedIsTold(s: State, w: WorkerId, r: Request)
    requires Enabled(s, Deliver(w)) && Due(s, w) == [r.hs] && AddrOf(s.board, w) == Some(r) && r !in s.alive
    ensures TellsDead(s, w, r)
  {
    assert Due(s, w)[0] == s.threads[w].resWork;
  }

  // With the clearing, it never is.
  lemma ClearedNeverReadDead(s: State, a: Action, r: Request)
    requires Reachable(true, s) && Enabled(s, a) && Reads(s, a) == Some(r)
    ensures r in s.alive && Works(s.board, r)
  {
    ReachableInv(true, s);
    assert a.w in Members(s.board.free) + Members(s.board.working);
    assert Works(s.board, r);
  }
}
