// Where every request is: the lists of the pool against its whole history.
module PoolHistory {
  import opened Common
  import opened Pool
  import opened PoolBoard

  ghost predicate Placed(s: State) {
    && Kept(s.started, s.dropped) == s.given + s.board.waiting
    && NoDuplicates(s.started)
    && (forall r | r in s.dropped || r in s.alive :: r in s.started)
    && (forall r | r in s.told || r in s.cancelled :: r in s.given)
    && (forall r | r in s.dropped || r in s.cancelled :: r !in s.alive)
    && (forall r | r in s.board.waiting :: r in s.alive)
    && (forall w | w in s.board.addr && s.board.addr[w].Some? :: s.board.addr[w].value in s.given)
    && (forall r | r in s.given :: Works(s.board, r) || r in s.told || r in s.cancelled)
    && (forall r | Works(s.board, r) :: r !in s.told && r !in s.cancelled && r in s.alive)
  }

  ghost predicate ToldOnce(clears: bool, s: State) {
    clears ==> NoDuplicates(s.told) && forall r | r in s.told :: r !in s.cancelled
  }

  ghost predicate ListsInv(clears: bool, s: State) {
    && BoardInv(clears, s.board) && Placed(s) && ToldOnce(clears, s)
    && s.threads.Keys == s.board.addr.Keys
    && (s.main.Telling? ==> s.main.w in s.threads)
  }

  lemma DistinctParts<T>(a: seq<T>, b: seq<T>)
    requires NoDuplicates(a + b)
    ensures forall x | x in a :: x !in b
  {
    forall i, j | 0 <= i < |a| && 0 <= j < |b|
      ensures a[i] != b[j]
    {
      assert (a + b)[i] == a[i] && (a + b)[|a| + j] == b[j];
    }
  }

  lemma PlacedDistinct(s: State)
    requires Placed(s)
    ensures NoDuplicates(s.given + s.board.waiting)
    ensures forall r | r in s.given :: r !in s.board.waiting
    ensures forall r | r in s.given + s.board.waiting :: r in s.started && r !in s.dropped
  {
    KeptDistinct(s.started, s.dropped);
    DistinctParts(s.given, s.board.waiting);
  }

  lemma FreshIsNowhere(s: State, r: Request)
    requires Placed(s) && r !in s.started
    ensures r !in s.board.waiting && r !in s.given && forall w | w in s.board.addr :: s.board.addr[w] != Some(r)
  {
    PlacedDistinct(s);
    assert r !in s.given + s.board.waiting;
  }

  function Queued(s: State, r: Request): State {
    s.(board := s.board.(waiting := s.board.waiting + [r]), alive := s.alive + {r}, started := s.started + [r])
  }

  lemma QueuedKeeps(clears: bool, s: State, r: Request)
    requires ListsInv(clears, s) && r !in s.started
    ensures ListsInv(clears, Queued(s, r))
  {
    FreshIsNowhere(s, r);
    StartKeeps(clears, s.board, r);
    QueuedPlaced(s, r);
  }

  lemma QueuedPlaced(s: State, r: Request)
    requires Placed(s) && r !in s.started
    ensures Placed(Queued(s, r))
  {
    var t := Queued(s, r);
    FreshIsNowhere(s, r);
    assert t.started[..|s.started|] == s.started;
    assert t.given + t.board.waiting == (s.given + s.board.waiting) + [r];
    assert forall q :: Works(t.board, q) <==> Works(s.board, q);
  }

  // The front of the queue has been handed to a worker.
  lemma HandedPlaced(s: State, t: State, r: Request)
    requires Placed(s) && s.board.waiting != [] && r == s.board.waiting[0]
    requires t == s.(board := t.board, threads := t.threads, given := s.given + [r])
    requires t.board.waiting == s.board.waiting[1..]
    requires forall q :: Works(t.board, q) <==> Works(s.board, q) || q == r
    requires forall w | w in t.board.addr && t.board.addr[w].Some? :: t.board.addr[w].value in t.given
    ensures Placed(t)
  {
    PlacedDistinct(s);
    assert s.board.waiting == [r] + t.board.waiting;
    assert t.given + t.board.waiting == s.given + s.board.waiting;
    assert r in s.board.waiting && r !in s.given;
  }

  lemma FrontHanded(s: State)
    requires Partition(s.board) && Placed(s) && s.board.free != [] && s.board.waiting != []
    ensures Placed(s.(board := Assigned(s.board), given := s.given + [s.board.waiting[0]]))
  {
    var b, t := s.board, s.(board := Assigned(s.board), given := s.given + [s.board.waiting[0]]);
    forall q
      ensures Works(t.board, q) <==> Works(b, q) || q == b.waiting[0]
    {
      AssignedWorks(b, q);
    }
    HandedPlaced(s, t, b.waiting[0]);
  }

  lemma PopulatedPlaced(s: State, u: State)
    requires Placed(s) && u == s.(board := Populated(s.board, 0, 1), threads := u.threads)
    ensures Placed(u)
  {
    if |s.board.working| + |s.board.free| == 0 {
      assert s.board.working == [] && forall r :: !Works(u.board, r) && !Works(s.board, r);
    }
  }

  lemma AssignHands(clears: bool, s: State)
    requires BoardInv(clears, s.board) && Placed(s)
    ensures Placed(AssignWork(s))
  {
    var b := Populated(s.board, 0, 1);
    var u := s.(board := b, threads := AssignWork(s).threads);
    PopulatedPlaced(s, u);
    PopulatedKeeps(clears, s.board, 0, 1);
    if b.free != [] && b.waiting != [] {
      FrontHanded(u);
    }
  }

  lemma AssignBoard(clears: bool, s: State)
    requires BoardInv(clears, s.board) && s.threads.Keys == s.board.addr.Keys
    ensures BoardInv(clears, AssignWork(s).board)
    ensures AssignWork(s).threads.Keys == AssignWork(s).board.addr.Keys
    ensures forall w | w in s.threads :: w in AssignWork(s).threads
  {
    PopulatedKeeps(clears, s.board, 0, 1);
    AssignedKeeps(clears, Populated(s.board, 0, 1));
    if |s.board.working| + |s.board.free| == 0 {
      assert s.board.addr.Keys == {};
    }
  }

  lemma AssignKeeps(clears: bool, s: State)
    requires ListsInv(clears, s)
    ensures ListsInv(clears, AssignWork(s))
  {
    AssignBoard(clears, s);
    AssignHands(clears, s);
  }

  // A worker has let go of r, which was told its answer or cancelled.
  lemma LetGoPlaced(s: State, t: State, r: Request)
    requires Placed(s) && Forgets(s.board, t.board) && t.given == s.given && t.started == s.started
    requires t.dropped == s.dropped
    requires forall q :: Works(t.board, q) <==> Works(s.board, q) && q != r
    requires || (t.told == s.told + [r] && r in s.given && t.cancelled == s.cancelled && t.alive == s.alive)
             || (t.told == s.told && r !in s.board.waiting && r in s.started && t.alive == s.alive - {r} &&
                 t.cancelled == if Works(s.board, r) then s.cancelled + {r} else s.cancelled)
    ensures Placed(t)
  {
    if Works(s.board, r) {
      assert r in s.given;
    }
  }

  lemma DestroyWaiting(clears: bool, s: State, r: Request)
    requires ListsInv(clears, s) && r in s.alive && r in s.board.waiting
    ensures ListsInv(clears, Step(clears, s, Destroy(r)))
  {
    CancelledKeeps(clears, s.board, r);
    PlacedDistinct(s);
    KeptWithout(s.started, s.dropped, r);
    WithoutConcat(s.given, s.board.waiting, r);
    WithoutAbsent(s.given, r);
  }

  lemma DestroyOther(clears: bool, s: State, r: Request)
    requires ListsInv(clears, s) && r in s.alive && r !in s.board.waiting
    ensures ListsInv(clears, Step(clears, s, Destroy(r)))
  {
    ReturnFrees(clears, s.board, r);
    LetGoPlaced(s, Step(clears, s, Destroy(r)), r);
  }

  lemma StepDestroy(clears: bool, s: State, r: Request)
    requires ListsInv(clears, s) && r in s.alive
    ensures ListsInv(clears, Step(clears, s, Destroy(r)))
  {
    if r in s.board.waiting {
      DestroyWaiting(clears, s, r);
    } else {
      DestroyOther(clears, s, r);
    }
  }

  // The delegate of r is called.
  function Told(clears: bool, s: State, w: WorkerId, r: Request): State
    requires w in s.threads
  {
    s.(board := ReturnFrom(clears, s.board, r, 0), main := Telling(w, r, s.threads[w].res), told := s.told + [r])
  }

  lemma ToldKeeps(clears: bool, s: State, w: WorkerId, r: Request)
    requires ListsInv(clears, s) && w in s.threads && AddrOf(s.board, w) == Some(r)
    ensures ListsInv(clears, Told(clears, s, w, r))
  {
    assert clears ==> Works(s.board, r) by {
      assert clears ==> w in s.board.working;
    }
    ReturnFrees(clears, s.board, r);
    LetGoPlaced(s, Told(clears, s, w, r), r);
    ToldOnceMore(clears, s, r);
  }

  lemma ToldOnceMore(clears: bool, s: State, r: Request)
    requires Placed(s) && ToldOnce(clears, s) && (clears ==> Works(s.board, r))
    ensures ToldOnce(clears, s.(told := s.told + [r]))
  {
  }

  lemma SameBoard(clears: bool, b: Board<WorkerId>, need: map<WorkerId, seq<HostService>>)
    requires BoardInv(clears, b) && need.Keys == b.need.Keys
    ensures BoardInv(clears, b.(need := need))
    ensures forall r :: Works(b.(need := need), r) <==> Works(b, r)
  {
  }

  // Steps that leave the lists and the requests alone.
  lemma SameLists(clears: bool, s: State, t: State)
    requires ListsInv(clears, s) && t.threads.Keys == s.threads.Keys && (t.main == s.main || t.main == Idle)
    requires t.board == s.board.(need := t.board.need) && t.board.need.Keys == s.board.need.Keys
    requires t == s.(board := t.board, threads := t.threads, main := t.main, asked := t.asked, freed := t.freed)
    ensures ListsInv(clears, t)
  {
    SameBoard(clears, s.board, t.board.need);
  }

  lemma ThreadStepLists(clears: bool, s: State, a: Action)
    requires ListsInv(clears, s) && Enabled(s, a)
    requires (a.TakeWork? || a.Lookup? || a.Acquire? || a.FreeOld? || a.Publish?)
    ensures ListsInv(clears, Step(clears, s, a))
  {
    var t := Step(clears, s, a);
    assert t.threads.Keys == s.threads.Keys;
    assert t.board.need.Keys == s.board.need.Keys;
    SameLists(clears, s, t);
  }

  lemma DeliverLists(clears: bool, s: State, w: WorkerId)
    requires ListsInv(clears, s) && Enabled(s, Deliver(w))
    ensures ListsInv(clears, Step(clears, s, Deliver(w)))
  {
    if Accepts(s, w) {
      ToldKeeps(clears, s, w, AddrOf(s.board, w).value);
    } else {
      var t := Step(clears, s, Deliver(w));
      assert t.threads.Keys == s.threads.Keys;
      SameLists(clears, s, t);
    }
  }

  lemma ReturnLists(clears: bool, s: State)
    requires ListsInv(clears, s) && Enabled(s, Return)
    ensures ListsInv(clears, Step(clears, s, Return))
  {
    var t := PutThread(s, s.main.w, s.threads[s.main.w].(full := false)).(main := Idle);
    assert t.threads.Keys == s.threads.Keys;
    SameLists(clears, s, t);
    AssignKeeps(clears, t);
  }

  lemma StepKeepsLists(clears: bool, s: State, a: Action)
    requires ListsInv(clears, s) && Enabled(s, a)
    ensures ListsInv(clears, Step(clears, s, a))
  {
    if a.Start? {
      QueuedKeeps(clears, s, a.r);
      AssignKeeps(clears, Queued(s, a.r));
    } else if a.Destroy? {
      StepDestroy(clears, s, a.r);
    } else if a.Deliver? {
      DeliverLists(clears, s, a.w);
    } else if a.Return? {
      ReturnLists(clears, s);
    } else {
      ThreadStepLists(clears, s, a);
    }
  }
}
