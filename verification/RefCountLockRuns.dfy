// Runs in which WeakPtr::lock leaves a weak pointer on a freed block, or
// revives a deleted object.
module RefCountLockRuns {
  import opened Common
  import opened RefCount

  // ---------- a run in which a weak pointer outlives its block ----------

  const Nulls := Initial.blocks[0]
  const Shared := Block(1, 1, true, 1, true, None, 0, None, 0)
  const P := Handle(Strong, Live, 1, Some(1), None, None)
  const W := Handle(Weak, Live, 1, Some(1), None, None)

  // SharedPtr p(new T); WeakPtr w(p);
  const SetUp := [NewShared(1, 1, true), Attach(1), AttachStrong(1), BeginCopy(2, Weak, 1), Attach(2)]
  const Ready := State(map[0 := Nulls, 1 := Shared.(wc := 2)], map[1 := P, 2 := W])

  lemma SetUpRuns()
    ensures CanRun(Initial, SetUp) && Run(Initial, SetUp) == Ready
  {
    var b := Shared.(sc := 0, wc := 0, started := false);
    var s1 := State(map[0 := Nulls, 1 := b], map[1 := P.(phase := Reading)]);
    var s2 := State(map[0 := Nulls, 1 := b.(wc := 1)], map[1 := P.(phase := Counted)]);
    var s3 := State(map[0 := Nulls, 1 := Shared], map[1 := P]);
    var s4 := State(map[0 := Nulls, 1 := Shared], map[1 := P, 2 := W.(phase := Reading, source := Some(1))]);
    Prepend(s4, Attach(2), Ready, []);
    Prepend(s3, BeginCopy(2, Weak, 1), s4, [Attach(2)]);
    Prepend(s2, AttachStrong(1), s3, [BeginCopy(2, Weak, 1), Attach(2)]);
    Prepend(s1, Attach(1), s2, [AttachStrong(1), BeginCopy(2, Weak, 1), Attach(2)]);
    Prepend(Initial, NewShared(1, 1, true), s1, [Attach(1), AttachStrong(1), BeginCopy(2, Weak, 1), Attach(2)]);
  }

  // { SharedPtr q = w.lock(); }
  const LockBuilds := [LockBegin(2), LockAdopt(3, 2), LockEnd(2)]
  const Built := State(map[0 := Nulls.(wc := 2), 1 := Shared.(sc := 2, wc := 2)], map[1 := P, 2 := W, 3 := P])

  lemma LockRuns()
    ensures CanRun(Ready, LockBuilds) && Run(Ready, LockBuilds) == Built
  {
    var n, b := Nulls.(wc := 2), Shared.(wc := 2);
    var s1 := State(map[0 := Nulls, 1 := b.(sc := 2)], map[1 := P, 2 := W.(locking := Some(2))]);
    var s2 := State(map[0 := n, 1 := b.(sc := 3)], map[1 := P, 2 := W.(locking := Some(2)), 3 := P]);
    Prepend(s2, LockEnd(2), Built, []);
    Prepend(s1, LockAdopt(3, 2), s2, [LockEnd(2)]);
    Prepend(Ready, LockBegin(2), s1, [LockAdopt(3, 2), LockEnd(2)]);
  }

  const DropQ := [DetachStrong(3), DetachWeak(3)]
  const Locked := State(map[0 := Nulls.(wc := 2), 1 := Shared],
                        map[1 := P, 2 := W, 3 := P.(phase := Gone)])

  lemma DropQRuns()
    ensures CanRun(Built, DropQ) && Run(Built, DropQ) == Locked
  {
    var s1 := State(map[0 := Nulls.(wc := 2), 1 := Shared.(wc := 2)],
                    map[1 := P, 2 := W, 3 := P.(phase := Detached)]);
    Prepend(s1, DetachWeak(3), Locked, []);
    Prepend(Built, DetachStrong(3), s1, [DetachWeak(3)]);
  }

  // p goes away: its object first, then the block
  const DropObject := [DetachStrong(1), DeleteObject(1)]
  const Emptied := State(map[0 := Nulls.(wc := 2), 1 := Shared.(sc := 0, deletes := 1)],
                         map[1 := P.(phase := Detached, obj := None), 2 := W, 3 := P.(phase := Gone)])

  lemma DropObjectRuns()
    ensures CanRun(Locked, DropObject) && Run(Locked, DropObject) == Emptied
  {
    var s1 := State(map[0 := Nulls.(wc := 2), 1 := Shared.(sc := 0, deleter := Some(1))],
                    map[1 := P.(phase := Deleting), 2 := W, 3 := P.(phase := Gone)]);
    Prepend(s1, DeleteObject(1), Emptied, []);
    Prepend(Locked, DetachStrong(1), s1, [DeleteObject(1)]);
  }

  const DropBlock := [DetachWeak(1), FreeBlock(1)]
  const Lost := State(map[0 := Nulls.(wc := 2), 1 := Shared.(sc := 0, wc := 0, deletes := 1, frees := 1)],
                      map[1 := P.(phase := Gone, obj := None), 2 := W, 3 := P.(phase := Gone)])

  lemma DropBlockRuns()
    ensures CanRun(Emptied, DropBlock) && Run(Emptied, DropBlock) == Lost
  {
    var s1 := State(map[0 := Nulls.(wc := 2), 1 := Shared.(sc := 0, wc := 0, deletes := 1, freer := Some(1))],
                    map[1 := P.(phase := Freeing, obj := None), 2 := W, 3 := P.(phase := Gone)]);
    Prepend(s1, FreeBlock(1), Lost, []);
    Prepend(Emptied, DetachWeak(1), s1, [FreeBlock(1)]);
  }

  // One lock() whose result is dropped, and the weak pointer is left with a
  // block that has been freed.
  lemma LockBreaksTheCounts()
    ensures var acts := SetUp + LockBuilds + DropQ + DropObject + DropBlock;
            CanRun(Initial, acts) &&
            var s := Run(Initial, acts);
            && IsIn(s, 2, Live) && s.handles[2].cnt == 1 && 1 in s.blocks && s.blocks[1].frees == 1
            && WeakHolders(s, 1) != {} && s.blocks[1].wc == 0
  {
    SetUpRuns();
    LockRuns();
    RunConcat(Initial, SetUp, LockBuilds);
    DropQRuns();
    RunConcat(Initial, SetUp + LockBuilds, DropQ);
    DropObjectRuns();
    RunConcat(Initial, SetUp + LockBuilds + DropQ, DropObject);
    DropBlockRuns();
    RunConcat(Initial, SetUp + LockBuilds + DropQ + DropObject, DropBlock);
    assert 2 in WeakHolders(Lost, 1);
  }

  // ---------- a run in which lock() revives a deleted object ----------

  const OneMore := [BeginCopy(4, Weak, 2), Attach(4)]
  const Shared3 := State(map[0 := Nulls, 1 := Shared.(wc := 3)], map[1 := P, 2 := W, 4 := W])

  lemma OneMoreRuns()
    ensures CanRun(Ready, OneMore) && Run(Ready, OneMore) == Shared3
  {
    var s1 := State(map[0 := Nulls, 1 := Shared.(wc := 2)],
                    map[1 := P, 2 := W, 4 := W.(phase := Reading, source := Some(2))]);
    Prepend(s1, Attach(4), Shared3, []);
    Prepend(Ready, BeginCopy(4, Weak, 2), s1, [Attach(4)]);
  }

  const Orphaned := State(map[0 := Nulls, 1 := Shared.(sc := 0, wc := 3, deletes := 1)],
                          map[1 := P.(phase := Detached, obj := None), 2 := W, 4 := W])

  lemma OrphanRuns()
    ensures CanRun(Shared3, DropObject) && Run(Shared3, DropObject) == Orphaned
  {
    var s1 := State(map[0 := Nulls, 1 := Shared.(sc := 0, wc := 3, deleter := Some(1))],
                    map[1 := P.(phase := Deleting), 2 := W, 4 := W]);
    Prepend(s1, DeleteObject(1), Orphaned, []);
    Prepend(Shared3, DetachStrong(1), s1, [DeleteObject(1)]);
  }

  const TwoLocks := [LockBegin(2), LockBegin(4), LockAdopt(3, 4)]
  const Revived := State(map[0 := Nulls.(wc := 2), 1 := Shared.(sc := 3, wc := 3, deletes := 1)],
                         map[1 := P.(phase := Detached, obj := None), 2 := W.(locking := Some(1)),
                             4 := W.(locking := Some(2)), 3 := P])

  lemma TwoLocksRun()
    ensures CanRun(Orphaned, TwoLocks) && Run(Orphaned, TwoLocks) == Revived
  {
    var b, q := Shared.(sc := 1, wc := 3, deletes := 1), P.(phase := Detached, obj := None);
    var s1 := State(map[0 := Nulls, 1 := b], map[1 := q, 2 := W.(locking := Some(1)), 4 := W]);
    var s2 := State(map[0 := Nulls, 1 := b.(sc := 2)],
                    map[1 := q, 2 := W.(locking := Some(1)), 4 := W.(locking := Some(2))]);
    Prepend(s2, LockAdopt(3, 4), Revived, []);
    Prepend(s1, LockBegin(4), s2, [LockAdopt(3, 4)]);
    Prepend(Orphaned, LockBegin(2), s1, [LockBegin(4), LockAdopt(3, 4)]);
  }

  // Two lock()s at once on an object that has been deleted: the second builds
  // a live strong handle on it.
  lemma TwoLocksRevive()
    ensures var acts := SetUp + OneMore + DropObject + TwoLocks;
            CanRun(Initial, acts) &&
            var s := Run(Initial, acts);
            IsIn(s, 3, Live) && s.handles[3] == P && 1 in s.blocks && s.blocks[1].deletes == 1
  {
    SetUpRuns();
    OneMoreRuns();
    RunConcat(Initial, SetUp, OneMore);
    OrphanRuns();
    RunConcat(Initial, SetUp + OneMore, DropObject);
    TwoLocksRun();
    RunConcat(Initial, SetUp + OneMore + DropObject, TwoLocks);
  }
}
