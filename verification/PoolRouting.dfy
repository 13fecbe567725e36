// Which answer reaches which request, and who still owes an answer.
module PoolRouting {
  import opened Common
  import opened Pool
  import opened PoolBoard
  import opened PoolHistory

  predicate IsAnswer(s: State, w: WorkerId, a: Answer, hs: HostService) {
    a.id < |s.asked| && s.asked[a.id] == Asked(w, hs)
  }

  predicate InHand(pc: Pc) {
    pc.Found? || pc.Owning? || pc.Dropped?
  }

  predicate ThreadOk(s: State, w: WorkerId, t: Thread) {
    && (t.res.Some? ==> IsAnswer(s, w, t.res.value, t.resWork))
    && (t.full ==> t.res.Some? && !t.pc.Owning? && !t.pc.Dropped?)
    && (InHand(t.pc) ==> && IsAnswer(s, w, t.pc.info, t.pc.hs) && t.pc.info.id !in s.freed
                         && (t.res.Some? ==> t.res.value.id < t.pc.info.id))
    && (t.res.Some? && t.res.value.found && !t.pc.Dropped? ==> t.res.value.id !in s.freed)
  }

  // While the delegate runs, its answer stays where it is.
  predicate TellingOk(s: State) {
    s.main.Telling? ==>
      && s.main.w in s.threads && s.threads[s.main.w].full && s.main.info.Some?
      && s.threads[s.main.w].res == s.main.info && s.threads[s.main.w].resWork == s.main.who.hs
  }

  ghost predicate AnswersInv(s: State) {
    && (forall w | w in s.threads :: ThreadOk(s, w, s.threads[w]))
    && TellingOk(s)
    && (forall i | i in s.freed :: i < |s.asked|)
  }

  lemma FreedAnswerIsOld(s: State, w: WorkerId)
    requires AnswersInv(s) && Enabled(s, FreeOld(w))
    ensures AnswersInv(Step(true, s, FreeOld(w)))
  {
    var t := Step(true, s, FreeOld(w));
    assert ThreadOk(s, w, s.threads[w]);
    forall v | v in t.threads
      ensures ThreadOk(t, v, t.threads[v])
    {
      assert ThreadOk(s, v, s.threads[v]);
    }
  }

  lemma NewAnswer(s: State, w: WorkerId, found: bool)
    requires AnswersInv(s) && Enabled(s, Lookup(w, found))
    ensures AnswersInv(Step(true, s, Lookup(w, found)))
  {
    var t := Step(true, s, Lookup(w, found));
    forall v | v in t.threads
      ensures ThreadOk(t, v, t.threads[v])
    {
      assert ThreadOk(s, v, s.threads[v]);
    }
  }

  lemma OneThread(s: State, t: State, w: WorkerId)
    requires AnswersInv(s) && w in s.threads && w in t.threads && t.threads == s.threads[w := t.threads[w]]
    requires t.asked == s.asked && t.freed == s.freed
    requires ThreadOk(t, w, t.threads[w]) && TellingOk(t)
    ensures AnswersInv(t)
  {
    forall v | v in t.threads
      ensures ThreadOk(t, v, t.threads[v])
    {
      assert v != w ==> ThreadOk(s, v, s.threads[v]);
    }
  }

  lemma AssignAnswers(clears: bool, s: State)
    requires ListsInv(clears, s) && AnswersInv(s)
    ensures AnswersInv(AssignWork(s))
  {
    AssignBoard(clears, s);
    var t := AssignWork(s);
    if |s.board.working| + |s.board.free| == 0 {
      assert s.board.addr.Keys == {};
    }
    forall v | v in t.threads
      ensures ThreadOk(t, v, t.threads[v])
    {
      assert v in s.threads ==> ThreadOk(s, v, s.threads[v]);
    }
  }

  lemma SameThreads(s: State, t: State)
    requires AnswersInv(s) && t.threads == s.threads && t.asked == s.asked && t.freed == s.freed && t.main == s.main
    ensures AnswersInv(t)
  {
    forall w | w in t.threads
      ensures ThreadOk(t, w, t.threads[w])
    {
      assert ThreadOk(s, w, s.threads[w]);
    }
  }

  function ToldAll(s: State): State
    requires Enabled(s, Return)
  {
    PutThread(s, s.main.w, s.threads[s.main.w].(full := false)).(main := Idle)
  }

  lemma ToldAllKeeps(clears: bool, s: State)
    requires ListsInv(clears, s) && AnswersInv(s) && Enabled(s, Return)
    ensures ListsInv(clears, ToldAll(s)) && AnswersInv(ToldAll(s))
  {
    var t := ToldAll(s);
    assert ThreadOk(s, s.main.w, s.threads[s.main.w]);
    OneThread(s, t, s.main.w);
    assert t.threads.Keys == s.threads.Keys;
    SameLists(clears, s, t);
  }

  lemma ToldAnswers(clears: bool, s: State, w: WorkerId, r: Request)
    requires AnswersInv(s) && Enabled(s, Deliver(w)) && r.hs == s.threads[w].resWork
    ensures AnswersInv(Told(clears, s, w, r))
  {
    assert ThreadOk(s, w, s.threads[w]);
    var u := s.(main := Telling(w, r, s.threads[w].res));
    OneThread(s, u, w);
    SameThreads(u, Told(clears, s, w, r));
  }

  lemma IgnoredAnswers(s: State, w: WorkerId)
    requires AnswersInv(s) && Enabled(s, Deliver(w))
    ensures AnswersInv(PutThread(s, w, s.threads[w].(full := false)))
  {
    assert ThreadOk(s, w, s.threads[w]);
    OneThread(s, PutThread(s, w, s.threads[w].(full := false)), w);
  }

  lemma DeliverAnswers(clears: bool, s: State, w: WorkerId)
    requires AnswersInv(s) && Enabled(s, Deliver(w))
    ensures AnswersInv(Step(clears, s, Deliver(w)))
  {
    if Accepts(s, w) {
      ToldAnswers(clears, s, w, AddrOf(s.board, w).value);
    } else {
      IgnoredAnswers(s, w);
    }
  }

  lemma OwnStepAnswers(clears: bool, s: State, a: Action)
    requires AnswersInv(s) && Enabled(s, a) && (a.TakeWork? || a.Acquire? || a.Publish?)
    ensures AnswersInv(Step(clears, s, a))
  {
    assert ThreadOk(s, a.w, s.threads[a.w]);
    var t := Step(clears, s, a);
    assert ThreadOk(t, a.w, t.threads[a.w]);
    OneThread(s, t, a.w);
  }

  lemma StepKeepsAnswers(clears: bool, s: State, a: Action)
    requires ListsInv(clears, s) && AnswersInv(s) && Enabled(s, a)
    ensures AnswersInv(Step(clears, s, a))
  {
    if a.Start? {
      QueuedKeeps(clears, s, a.r);
      SameThreads(s, Queued(s, a.r));
      AssignAnswers(clears, Queued(s, a.r));
    } else if a.Return? {
      ToldAllKeeps(clears, s);
      AssignAnswers(clears, ToldAll(s));
    } else if a.Lookup? {
      NewAnswer(s, a.w, a.found);
    } else if a.FreeOld? {
      FreedAnswerIsOld(s, a.w);
    } else if a.Destroy? {
      SameThreads(s, Step(clears, s, a));
    } else if a.Deliver? {
      DeliverAnswers(clears, s, a.w);
    } else {
      OwnStepAnswers(clears, s, a);
    }
  }

  // ---------- who owes an answer ----------

  // The lookups of w that onCall has not seen yet, oldest first.
  function Due(s: State, w: WorkerId): seq<HostService> {
    if w !in s.threads then []
    else
      var t := s.threads[w];
      (if t.full && !(s.main.Telling? && s.main.w == w) then [t.resWork] else [])
      + (if t.pc.Sleeping? then [] else [t.pc.hs])
      + NeedOf(s.board, w)
  }

  // A worker that has a request still owes an answer for it, after all others.
  predicate BusyOwes(s: State, w: WorkerId) {
    var d := Due(s, w);
    d != [] && AddrOf(s.board, w).Some? && d[|d| - 1] == AddrOf(s.board, w).value.hs
  }

  // With no request cancelled in flight, nobody owes anything else.
  predicate OwesNoMore(s: State, w: WorkerId) {
    && (w in s.board.free ==> Due(s, w) == [])
    && (w in s.board.working ==> |Due(s, w)| == 1)
  }

  ghost predicate DuesInv(clears: bool, s: State) {
    && (forall w | w in s.board.working :: BusyOwes(s, w))
    && (!clears ==> forall w | w in s.threads && Due(s, w) != [] :: AddrOf(s.board, w).Some?)
    && (s.cancelled == {} ==> forall w | w in s.threads :: OwesNoMore(s, w))
  }

  // ---------- nobody idles while requests wait ----------

  predicate NoIdling(s: State) {
    && (|s.board.free| + |s.board.working| == 0 ==> s.board.waiting == [])
    && (s.cancelled == {} ==>
          || s.board.waiting == []
          || |s.board.free| <= if s.main.Telling? then 1 else 0)
  }

  ghost predicate Inv(clears: bool, s: State) {
    ListsInv(clears, s) && AnswersInv(s) && DuesInv(clears, s) && NoIdling(s)
  }

  lemma BusyFrame(s: State, t: State, w: WorkerId)
    requires BusyOwes(s, w) && Due(t, w) == Due(s, w) && AddrOf(t.board, w) == AddrOf(s.board, w)
    ensures BusyOwes(t, w)
  {
  }

  lemma OwesFrame(s: State, t: State, w: WorkerId)
    requires OwesNoMore(s, w) && Due(t, w) == Due(s, w)
    requires (w in t.board.free ==> w in s.board.free) && (w in t.board.working ==> w in s.board.working)
    ensures OwesNoMore(t, w)
  {
  }

  lemma DueFrame(s: State, t: State, w: WorkerId)
    requires w in s.threads && w in t.threads && t.threads[w] == s.threads[w]
    requires NeedOf(t.board, w) == NeedOf(s.board, w)
    requires (s.main.Telling? && s.main.w == w) <==> (t.main.Telling? && t.main.w == w)
    ensures Due(t, w) == Due(s, w)
  {
  }

  lemma SameDues(clears: bool, s: State, t: State)
    requires DuesInv(clears, s) && t.threads.Keys == s.threads.Keys && t.cancelled == s.cancelled
    requires t.board.free == s.board.free && t.board.working == s.board.working && t.board.addr == s.board.addr
    requires forall w | w in s.threads :: Due(t, w) == Due(s, w)
    requires s.threads.Keys == s.board.addr.Keys && Partition(s.board)
    ensures DuesInv(clears, t)
  {
    forall w | w in t.board.working
      ensures BusyOwes(t, w)
    {
      assert BusyOwes(s, w) && w in Members(s.board.working);
    }
    if t.cancelled == {} {
      forall w | w in t.threads
        ensures OwesNoMore(t, w)
      {
        assert OwesNoMore(s, w);
      }
    }
  }

  // The steps of a thread move its dues along without changing them.
  lemma OwnStepDues(clears: bool, s: State, a: Action)
    requires AnswersInv(s) && Enabled(s, a) && (a.TakeWork? || a.Lookup? || a.Acquire? || a.FreeOld? || a.Publish?)
    ensures forall w | w in s.threads :: Due(Step(clears, s, a), w) == Due(s, w)
  {
    assert ThreadOk(s, a.w, s.threads[a.w]);
    if a.Publish? {
      assert !(s.main.Telling? && s.main.w == a.w);
    }
  }

  // The worker at index k has been freed; what the others owe is unchanged.
  lemma StillBusy(clears: bool, s: State, t: State, k: nat)
    requires Partition(s.board) && s.threads.Keys == s.board.addr.Keys && t.threads == s.threads && DuesInv(clears, s)
    requires k < |s.board.working| && t.board == Freed(clears, s.board, k)
    requires forall w | w in s.threads && w != s.board.working[k] :: Due(t, w) == Due(s, w)
    requires Due(s, s.board.working[k]) == [] ==> Due(t, s.board.working[k]) == []
    ensures forall w | w in t.board.working :: BusyOwes(t, w)
    ensures !clears ==> forall w | w in t.threads && Due(t, w) != [] :: AddrOf(t.board, w).Some?
  {
    SwapRemoveMembers(s.board.working, k);
    forall w | w in t.board.working
      ensures BusyOwes(t, w)
    {
      assert w in Members(s.board.working) && w != s.board.working[k];
      assert BusyOwes(s, w);
      BusyFrame(s, t, w);
    }
    if !clears {
      forall w | w in t.threads && Due(t, w) != []
        ensures AddrOf(t.board, w).Some?
      {
        assert Due(s, w) != [] && AddrOf(t.board, w) == AddrOf(s.board, w);
      }
    }
  }

  lemma DestroyDues(clears: bool, s: State, r: Request)
    requires ListsInv(clears, s) && DuesInv(clears, s) && Enabled(s, Destroy(r))
    ensures DuesInv(clears, Step(clears, s, Destroy(r)))
  {
    var t := Step(clears, s, Destroy(r));
    if r in s.board.waiting {
      assert forall w | w in s.threads :: Due(t, w) == Due(s, w);
      SameDues(clears, s, t);
    } else {
      ReturnFrees(clears, s.board, r);
      ForgetfulDues(s, t);
      if Works(s.board, r) {
        var k :| 0 <= k < |s.board.working| && t.board == Freed(clears, s.board, k);
        assert r in t.cancelled;
        StillBusy(clears, s, t, k);
      } else {
        SameDues(clears, s, t);
      }
    }
  }

  lemma ForgetfulDues(s: State, t: State)
    requires t.threads == s.threads && t.main == s.main && Forgets(s.board, t.board)
    ensures forall w | w in s.threads :: Due(t, w) == Due(s, w)
  {
  }

  // onCall takes the oldest due of its worker.
  predicate Popped(s: State, t: State, w: WorkerId) {
    && w in s.threads && t.threads.Keys == s.threads.Keys
    && Due(s, w) == [s.threads[w].resWork] + Due(t, w)
    && forall v | v in s.threads && v != w :: Due(t, v) == Due(s, v)
  }

  function Ignored(s: State, w: WorkerId): State
    requires w in s.threads
  {
    PutThread(s, w, s.threads[w].(full := false))
  }

  lemma IgnoredPops(s: State, w: WorkerId)
    requires Enabled(s, Deliver(w))
    ensures Popped(s, Ignored(s, w), w)
  {
    assert Ignored(s, w).threads.Keys == s.threads.Keys;
  }

  lemma ToldPops(clears: bool, s: State, w: WorkerId, r: Request)
    requires Enabled(s, Deliver(w)) && BoardInv(clears, s.board)
    ensures Popped(s, Told(clears, s, w, r), w)
  {
    var t := Told(clears, s, w, r);
    ReturnFrees(clears, s.board, r);
    assert t.threads == s.threads && t.board.need == s.board.need && t.main.w == w && s.main.Idle?;
    ToldPopsOwn(s, t, w);
    forall v | v in s.threads && v != w
      ensures Due(t, v) == Due(s, v)
    {
      DueFrame(s, t, v);
    }
  }

  lemma ToldPopsOwn(s: State, t: State, w: WorkerId)
    requires w in s.threads && s.threads[w].full && s.main.Idle? && t.threads == s.threads
    requires t.board.need == s.board.need
    requires t.main.Telling? && t.main.w == w
    ensures Due(s, w) == [s.threads[w].resWork] + Due(t, w)
  {
  }

  lemma IgnoredDues(clears: bool, s: State, w: WorkerId)
    requires ListsInv(clears, s) && DuesInv(clears, s) && Enabled(s, Deliver(w)) && !Accepts(s, w)
    ensures DuesInv(clears, Ignored(s, w))
  {
    var t := Ignored(s, w);
    IgnoredPops(s, w);
    IgnoredWasCancelled(clears, s, w);
    forall v | v in t.board.working
      ensures BusyOwes(t, v)
    {
      assert v in Members(s.board.working) && v in s.threads && BusyOwes(s, v);
      if v == w {
        IgnoredBusy(s, t, w);
      } else {
        BusyFrame(s, t, v);
      }
    }
  }

  lemma IgnoredBusy(s: State, t: State, w: WorkerId)
    requires BusyOwes(s, w) && w in s.threads && !Accepts(s, w) && Due(s, w) == [s.threads[w].resWork] + Due(t, w)
    requires AddrOf(t.board, w) == AddrOf(s.board, w)
    ensures BusyOwes(t, w)
  {
    var d, e := Due(s, w), Due(t, w);
    assert e != [] ==> d[|d| - 1] == e[|e| - 1];
  }

  // An answer nobody wants is the answer for a request cancelled in flight.
  lemma IgnoredWasCancelled(clears: bool, s: State, w: WorkerId)
    requires ListsInv(clears, s) && DuesInv(clears, s) && Enabled(s, Deliver(w)) && !Accepts(s, w)
    ensures s.cancelled != {}
  {
    assert w in s.board.addr && w in Members(s.board.free) + Members(s.board.working);
    assert w in s.board.working ==> BusyOwes(s, w);
    assert !OwesNoMore(s, w);
  }

  lemma ToldDues(clears: bool, s: State, w: WorkerId)
    requires ListsInv(clears, s) && DuesInv(clears, s) && Enabled(s, Deliver(w)) && Accepts(s, w)
    ensures DuesInv(clears, Told(clears, s, w, AddrOf(s.board, w).value))
  {
    var r := AddrOf(s.board, w).value;
    var t := Told(clears, s, w, r);
    ToldPops(clears, s, w, r);
    ReturnFrees(clears, s.board, r);
    if Works(s.board, r) {
      var k :| 0 <= k < |s.board.working| && AddrOf(s.board, s.board.working[k]) == Some(r)
               && t.board == Freed(clears, s.board, k);
      assert s.board.working[k] in Members(s.board.working);
      assert s.board.working[k] == w;
      StillBusy(clears, s, t, k);
      ToldOwesNoMore(clears, s, t, k);
    } else {
      assert w !in s.board.working;
      IdleToldDues(clears, s, t, w);
    }
  }

  lemma PoppedOwesNothing(s: State, t: State, w: WorkerId)
    requires OwesNoMore(s, w) && w in s.board.working && w !in t.board.working && Popped(s, t, w)
    ensures OwesNoMore(t, w)
  {
    assert |Due(s, w)| == 1 + |Due(t, w)|;
  }

  lemma ToldOwesNoMore(clears: bool, s: State, t: State, k: nat)
    requires Partition(s.board) && s.threads.Keys == s.board.addr.Keys && DuesInv(clears, s)
    requires k < |s.board.working| && Popped(s, t, s.board.working[k]) && t.board == Freed(clears, s.board, k)
    ensures s.cancelled == {} ==> forall v | v in s.threads :: OwesNoMore(t, v)
  {
    var w := s.board.working[k];
    SwapRemoveMembers(s.board.working, k);
    assert w in s.board.working;
    if s.cancelled == {} {
      forall v | v in s.threads
        ensures OwesNoMore(t, v)
      {
        assert OwesNoMore(s, v);
        if v != w {
          OwesFrame(s, t, v);
        } else {
          PoppedOwesNothing(s, t, w);
        }
      }
    }
  }

  // As written: an answer for a worker that is free again.
  lemma IdleToldDues(clears: bool, s: State, t: State, w: WorkerId)
    requires ListsInv(clears, s) && DuesInv(clears, s) && w in s.threads && w !in s.board.working
    requires t.threads == s.threads && t.board == s.board && t.cancelled == s.cancelled
    requires Due(s, w) != [] && (Due(t, w) != [] ==> Due(s, w) != [])
    requires forall v | v in s.threads && v != w :: Due(t, v) == Due(s, v)
    ensures DuesInv(clears, t)
  {
    assert w in Members(s.board.free) + Members(s.board.working);
    assert s.cancelled != {} by {
      assert !OwesNoMore(s, w);
    }
    forall v | v in t.board.working
      ensures BusyOwes(t, v)
    {
      assert BusyOwes(s, v) && v in Members(s.board.working);
      BusyFrame(s, t, v);
    }
  }

  // ---------- assign_work ----------

  lemma AssignDues(clears: bool, s: State)
    requires ListsInv(clears, s) && DuesInv(clears, s)
    ensures DuesInv(clears, AssignWork(s))
  {
    var u := s.(board := Populated(s.board, 0, 1), threads := AssignWork(s).threads);
    PopulatedDues(clears, s, u);
    PopulatedKeeps(clears, s.board, 0, 1);
    if u.board.free != [] && u.board.waiting != [] {
      HandedDues(clears, u, AssignWork(s));
    } else {
      assert s.given + [] == s.given;
      assert AssignWork(s) == u;
    }
  }

  lemma PopulatedDues(clears: bool, s: State, u: State)
    requires ListsInv(clears, s) && DuesInv(clears, s)
    requires u == s.(board := Populated(s.board, 0, 1), threads := AssignWork(s).threads)
    ensures DuesInv(clears, u) && u.threads.Keys == u.board.addr.Keys
  {
    if |s.board.working| + |s.board.free| == 0 {
      assert u.board.working == [] && u.threads == map[0 := NewThread, 1 := NewThread];
      NewThreadOwesNothing(u, 0);
      NewThreadOwesNothing(u, 1);
    } else {
      assert u == s;
    }
  }

  lemma NewThreadOwesNothing(u: State, w: WorkerId)
    requires w in u.threads && u.threads[w] == NewThread && NeedOf(u.board, w) == [] && w !in u.board.working
    ensures Due(u, w) == [] && OwesNoMore(u, w)
  {
  }

  lemma HandedDue(s: State, t: State, w: WorkerId)
    requires w in s.threads && t.threads == s.threads && t.main == s.main
    requires s.board.free != [] && s.board.waiting != [] && t.board == Assigned(s.board)
    requires w == s.board.free[|s.board.free| - 1]
    ensures Due(t, w) == Due(s, w) + [s.board.waiting[0].hs]
    ensures BusyOwes(t, w)
  {
  }

  lemma HandedDues(clears: bool, s: State, t: State)
    requires Partition(s.board) && s.threads.Keys == s.board.addr.Keys && DuesInv(clears, s)
    requires s.board.free != [] && s.board.waiting != []
    requires t == s.(board := Assigned(s.board), given := t.given)
    ensures DuesInv(clears, t)
  {
    var w := s.board.free[|s.board.free| - 1];
    HandedMembers(s.board);
    HandedDue(s, t, w);
    forall v | v in s.threads && v != w
      ensures Due(t, v) == Due(s, v)
    {
      DueFrame(s, t, v);
    }
    forall v | v in t.board.working
      ensures BusyOwes(t, v)
    {
      if v != w {
        assert BusyOwes(s, v) && v in Members(s.board.working) && v in s.threads;
        BusyFrame(s, t, v);
      }
    }
    if t.cancelled == {} {
      HandedOwesNoMore(s, t, w);
    }
    if !clears {
      forall v | v in t.threads && Due(t, v) != []
        ensures AddrOf(t.board, v).Some?
      {
        assert v != w ==> Due(s, v) != [];
      }
    }
  }

  lemma HandedMembers(b: Board<WorkerId>)
    requires Partition(b) && b.free != [] && b.waiting != []
    ensures var w, c := b.free[|b.free| - 1], Assigned(b);
            && w in b.free && w !in b.working && w !in c.free && w in c.working && w in b.addr
            && (forall v | v in c.free :: v in b.free) && (forall v | v in c.working && v != w :: v in b.working)
  {
    PopLast(b.free);
    assert b.free[|b.free| - 1] in Members(b.free);
  }

  lemma HandedOwesNoMore(s: State, t: State, w: WorkerId)
    requires w in s.board.free && w !in s.board.working && w !in t.board.free && w in t.board.working
    requires forall v | v in t.board.free :: v in s.board.free
    requires forall v | v in t.board.working && v != w :: v in s.board.working
    requires forall v | v in s.threads && v != w :: Due(t, v) == Due(s, v)
    requires |Due(t, w)| == |Due(s, w)| + 1
    requires forall v | v in s.threads :: OwesNoMore(s, v)
    requires w in s.threads && t.threads == s.threads
    ensures forall v | v in t.threads :: OwesNoMore(t, v)
  {
    assert OwesNoMore(s, w);
    forall v | v in t.threads
      ensures OwesNoMore(t, v)
    {
      assert OwesNoMore(s, v);
    }
  }

  lemma StepKeepsDues(clears: bool, s: State, a: Action)
    requires ListsInv(clears, s) && AnswersInv(s) && DuesInv(clears, s) && Enabled(s, a)
    ensures DuesInv(clears, Step(clears, s, a))
  {
    if a.Start? {
      QueuedKeeps(clears, s, a.r);
      QueuedDues(clears, s, a.r);
      AssignDues(clears, Queued(s, a.r));
    } else if a.Return? {
      ToldAllKeeps(clears, s);
      ToldAllDues(clears, s);
      AssignDues(clears, ToldAll(s));
    } else if a.Destroy? {
      DestroyDues(clears, s, a.r);
    } else if a.Deliver? {
      if Accepts(s, a.w) {
        ToldDues(clears, s, a.w);
      } else {
        IgnoredDues(clears, s, a.w);
      }
    } else {
      ThreadStepDues(clears, s, a);
    }
  }

  lemma QueuedDue(s: State, r: Request, w: WorkerId)
    ensures Due(Queued(s, r), w) == Due(s, w)
  {
  }

  lemma ToldAllDue(s: State, w: WorkerId)
    requires Enabled(s, Return) && w in s.threads
    ensures Due(ToldAll(s), w) == Due(s, w)
  {
  }

  lemma QueuedDues(clears: bool, s: State, r: Request)
    requires ListsInv(clears, s) && DuesInv(clears, s)
    ensures DuesInv(clears, Queued(s, r))
  {
    forall w | w in s.threads
      ensures Due(Queued(s, r), w) == Due(s, w)
    {
      QueuedDue(s, r, w);
    }
    SameDues(clears, s, Queued(s, r));
  }

  lemma ToldAllDues(clears: bool, s: State)
    requires ListsInv(clears, s) && DuesInv(clears, s) && Enabled(s, Return)
    ensures DuesInv(clears, ToldAll(s))
  {
    assert ToldAll(s).threads.Keys == s.threads.Keys;
    forall w | w in s.threads
      ensures Due(ToldAll(s), w) == Due(s, w)
    {
      ToldAllDue(s, w);
    }
    SameDues(clears, s, ToldAll(s));
  }

  lemma ThreadStepDues(clears: bool, s: State, a: Action)
    requires ListsInv(clears, s) && AnswersInv(s) && DuesInv(clears, s) && Enabled(s, a)
    requires a.TakeWork? || a.Lookup? || a.Acquire? || a.FreeOld? || a.Publish?
    ensures DuesInv(clears, Step(clears, s, a))
  {
    var t := Step(clears, s, a);
    OwnStepDues(clears, s, a);
    OwnStepFrame(clears, s, a);
    SameDues(clears, s, t);
  }

  lemma OwnStepFrame(clears: bool, s: State, a: Action)
    requires Enabled(s, a) && (a.TakeWork? || a.Lookup? || a.Acquire? || a.FreeOld? || a.Publish?)
    ensures var t := Step(clears, s, a);
            t.threads.Keys == s.threads.Keys && t.board == s.board.(need := t.board.need) && t.cancelled == s.cancelled
  {
    assert Step(clears, s, a).threads.Keys == s.threads.Keys;
  }

  // ---------- all together ----------

  lemma AssignIdles(s: State)
    requires Partition(s.board)
    requires |s.board.free| + |s.board.working| == 0 ==> |s.board.waiting| <= 1
    requires s.cancelled == {} ==> |s.board.waiting| <= 1 || |s.board.free| <= 1
    ensures NoIdling(AssignWork(s))
  {
  }

  lemma StepKeepsIdling(clears: bool, s: State, a: Action)
    requires ListsInv(clears, s) && NoIdling(s) && Enabled(s, a)
    ensures NoIdling(Step(clears, s, a))
  {
    if a.Start? {
      AssignIdles(Queued(s, a.r));
    } else if a.Return? {
      AssignIdles(ToldAll(s));
    } else if a.Destroy? {
      CancelledKeeps(clears, s.board, a.r);
      if a.r !in s.board.waiting {
        ReturnFrees(clears, s.board, a.r);
      }
    } else if a.Deliver? && Accepts(s, a.w) {
      ReturnFrees(clears, s.board, AddrOf(s.board, a.w).value);
    }
  }

  lemma StepKeeps(clears: bool, s: State, a: Action)
    requires Inv(clears, s) && Enabled(s, a)
    ensures Inv(clears, Step(clears, s, a))
  {
    StepKeepsLists(clears, s, a);
    StepKeepsAnswers(clears, s, a);
    StepKeepsDues(clears, s, a);
    StepKeepsIdling(clears, s, a);
  }

  lemma {:induction false} RunKeeps(clears: bool, s: State, acts: seq<Action>)
    requires Inv(clears, s) && CanRun(clears, s, acts)
    ensures Inv(clears, Run(clears, s, acts))
    decreases acts
  {
    if acts != [] {
      StepKeeps(clears, s, acts[0]);
      RunKeeps(clears, Step(clears, s, acts[0]), acts[1..]);
    }
  }

  lemma ReachableInv(clears: bool, s: State)
    requires Reachable(clears, s)
    ensures Inv(clears, s)
  {
    var acts :| CanRun(clears, Initial, acts) && Run(clears, Initial, acts) == s;
    RunKeeps(clears, Initial, acts);
  }
}
