// Where the answers of getaddrinfo are: each is freed once or still in the
// hands of the worker that asked for it.
module PoolAnswers {
  import opened Pool
  import opened PoolHistory
  import opened PoolRouting

  // The answers a thread has: the one it is about to publish, and the one it
  // published last unless it has just freed it.
  function HeldBy(t: Thread): set<nat> {
    (if InHand(t.pc) && t.pc.info.found then {t.pc.info.id} else {})
    + (if t.res.Some? && t.res.value.found && !t.pc.Dropped? then {t.res.value.id} else {})
  }

  predicate IsHeld(s: State, i: nat) {
    exists w | w in s.threads :: i in HeldBy(s.threads[w])
  }

  // The answers found by one step and by a run.
  function FoundIn(s: State, a: Action): set<nat> {
    if a.Lookup? && a.found then {|s.asked|} else {}
  }

  ghost function FoundBy(clears: bool, s: State, acts: seq<Action>): set<nat>
    requires CanRun(clears, s, acts)
    decreases acts
  {
    if acts == [] then {} else FoundIn(s, acts[0]) + FoundBy(clears, Step(clears, s, acts[0]), acts[1..])
  }

  ghost predicate Accounted(found: set<nat>, s: State) {
    forall i: nat :: i in found <==> i in s.freed || IsHeld(s, i)
  }

  lemma SameHeld(found: set<nat>, s: State, t: State)
    requires Accounted(found, s) && t.freed == s.freed
    requires forall w | w in s.threads :: w in t.threads && HeldBy(t.threads[w]) == HeldBy(s.threads[w])
    requires forall w | w in t.threads && w !in s.threads :: HeldBy(t.threads[w]) == {}
    ensures Accounted(found, t)
  {
    forall i: nat
      ensures IsHeld(t, i) <==> IsHeld(s, i)
    {
      if IsHeld(s, i) {
        var w :| w in s.threads && i in HeldBy(s.threads[w]);
        assert i in HeldBy(t.threads[w]);
      }
    }
  }

  // One thread changes what it holds.
  lemma OneHolds(found: set<nat>, s: State, t: State, w: WorkerId, more: set<nat>, less: set<nat>)
    requires Accounted(found, s) && w in s.threads && w in t.threads && t.threads == s.threads[w := t.threads[w]]
    requires HeldBy(t.threads[w]) == HeldBy(s.threads[w]) + more - less && t.freed == s.freed + less
    requires less <= HeldBy(s.threads[w]) && more !! less
    ensures Accounted(found + more, t)
  {
    forall i: nat
      ensures i in found + more <==> i in t.freed || IsHeld(t, i)
    {
      if IsHeld(s, i) {
        var v :| v in s.threads && i in HeldBy(s.threads[v]);
        assert i in less || i in HeldBy(t.threads[v]);
      }
      if i in more {
        assert i in HeldBy(t.threads[w]);
      }
      if IsHeld(t, i) {
        var v :| v in t.threads && i in HeldBy(t.threads[v]);
        assert i in more || i in HeldBy(s.threads[v]);
      }
    }
  }

  lemma OwnStepAccounts(clears: bool, found: set<nat>, s: State, a: Action)
    requires Accounted(found, s) && Enabled(s, a)
    requires a.TakeWork? || a.Lookup? || a.Acquire? || a.FreeOld? || a.Publish?
    requires a.w in s.threads && ThreadOk(s, a.w, s.threads[a.w])
    ensures Accounted(found + FoundIn(s, a), Step(clears, s, a))
  {
    var t, x := Step(clears, s, a), s.threads[a.w];
    var less := if a.FreeOld? && x.res.Some? && x.res.value.found then {x.res.value.id} else {};
    OneHolds(found, s, t, a.w, FoundIn(s, a), less);
  }

  lemma AssignAccounts(found: set<nat>, s: State)
    requires Accounted(found, s) && (|s.board.working| + |s.board.free| == 0 ==> s.threads == map[])
    ensures Accounted(found, AssignWork(s))
  {
    SameHeld(found, s, AssignWork(s));
  }

  lemma OtherStepAccounts(clears: bool, found: set<nat>, s: State, a: Action)
    requires Accounted(found, s) && Enabled(s, a) && (a.Start? || a.Destroy? || a.Deliver? || a.Return?)
    requires |s.board.working| + |s.board.free| == 0 ==> s.threads == map[]
    ensures Accounted(found, Step(clears, s, a))
  {
    if a.Start? {
      SameHeld(found, s, Queued(s, a.r));
      AssignAccounts(found, Queued(s, a.r));
    } else if a.Return? {
      SameHeld(found, s, ToldAll(s));
      AssignAccounts(found, ToldAll(s));
    } else {
      SameHeld(found, s, Step(clears, s, a));
    }
  }

  lemma NoWorkersNoThreads(clears: bool, s: State)
    requires Inv(clears, s) && |s.board.working| + |s.board.free| == 0
    ensures s.threads == map[]
  {
    assert s.board.working == [] && s.board.free == [];
    assert s.threads.Keys == {};
  }

  lemma StepAccounts(clears: bool, found: set<nat>, s: State, a: Action)
    requires Inv(clears, s) && Accounted(found, s) && Enabled(s, a)
    ensures Accounted(found + FoundIn(s, a), Step(clears, s, a))
  {
    if a.Start? || a.Destroy? || a.Deliver? || a.Return? {
      if |s.board.working| + |s.board.free| == 0 {
        NoWorkersNoThreads(clears, s);
      }
      OtherStepAccounts(clears, found, s, a);
      assert found + {} == found;
    } else {
      OwnStepAccounts(clears, found, s, a);
    }
  }

  lemma {:induction false} RunAccounts(clears: bool, found: set<nat>, s: State, acts: seq<Action>)
    requires Inv(clears, s) && Accounted(found, s) && CanRun(clears, s, acts)
    ensures Accounted(found + FoundBy(clears, s, acts), Run(clears, s, acts))
    decreases acts
  {
    if acts == [] {
      assert found + {} == found;
    } else {
      var more, t := FoundIn(s, acts[0]), Step(clears, s, acts[0]);
      StepAccounts(clears, found, s, acts[0]);
      StepKeeps(clears, s, acts[0]);
      RunAccounts(clears, found + more, t, acts[1..]);
      Union(found, more, FoundBy(clears, t, acts[1..]));
    }
  }

  lemma HeldIsAsked(s: State, w: WorkerId, i: nat)
    requires w in s.threads && ThreadOk(s, w, s.threads[w]) && i in HeldBy(s.threads[w])
    ensures i !in s.freed && i < |s.asked| && s.asked[i].w == w
  {
  }

  // None is both freed and held, and none is in two hands.
  ghost predicate HeldOnce(s: State) {
    && (forall i: nat :: i in s.freed ==> !IsHeld(s, i))
    && (forall w, v, i: nat | w in s.threads && v in s.threads
                            && i in HeldBy(s.threads[w]) && i in HeldBy(s.threads[v]) :: w == v)
  }

  lemma AnswersAreHeldOnce(s: State)
    requires AnswersInv(s)
    ensures HeldOnce(s)
  {
    forall w, i: nat | w in s.threads && i in HeldBy(s.threads[w])
      ensures i !in s.freed && i < |s.asked| && s.asked[i].w == w
    {
      HeldIsAsked(s, w, i);
    }
  }

  lemma InitialAccounts(clears: bool)
    ensures Inv(clears, Initial) && Accounted({}, Initial)
  {
  }

  lemma Union<T>(a: set<T>, b: set<T>, c: set<T>)
    ensures a + (b + c) == (a + b) + c
  {
  }

  // In every run, whatever is cancelled and whether the clearing works: the
  // answers found are those freed and those in the hands of a worker; none is
  // both, and none is in two hands.
  lemma NoAnswerLeaks(clears: bool, acts: seq<Action>)
    requires CanRun(clears, Initial, acts)
    ensures var s := Run(clears, Initial, acts);
            && (forall i: nat :: i in FoundBy(clears, Initial, acts) <==> i in s.freed || IsHeld(s, i))
            && HeldOnce(s)
  {
    InitialAccounts(clears);
    RunAccounts(clears, {}, Initial, acts);
    RunKeeps(clears, Initial, acts);
    assert {} + FoundBy(clears, Initial, acts) == FoundBy(clears, Initial, acts);
    AnswersAreHeldOnce(Run(clears, Initial, acts));
  }
}
