// The counters are exact, and objects and counter blocks die exactly when
// their last holder goes, in every interleaving without WeakPtr::lock.
module RefCountProof {
  import opened Common
  import opened RefCount

  lemma HoldersAfter(s: State, h: HandleId, x: Handle, c: BlockId)
    ensures WeakHolders(PutHandle(s, h, x), c)
            == if InWc(x, c) then WeakHolders(s, c) + {h} else WeakHolders(s, c) - {h}
    ensures StrongHolders(PutHandle(s, h, x), c)
            == if InSc(x, c) then StrongHolders(s, c) + {h} else StrongHolders(s, c) - {h}
  {
  }

  // ---------- a step about one handle and its block ----------

  function Rewrite(s: State, c: BlockId, b: Block, h: HandleId, x: Handle): State {
    PutHandle(PutBlock(s, c, b), h, x)
  }

  function One(p: bool): int {
    if p then 1 else 0
  }

  predicate WasInWc(s: State, h: HandleId, c: BlockId) {
    h in s.handles && InWc(s.handles[h], c)
  }

  predicate WasInSc(s: State, h: HandleId, c: BlockId) {
    h in s.handles && InSc(s.handles[h], c)
  }

  // The counters move with the handle.
  predicate Balanced(s: State, c: BlockId, b: Block, h: HandleId, x: Handle) {
    && c in s.blocks && x.cnt == c && (h in s.handles ==> s.handles[h].cnt == c)
    && b.wc - s.blocks[c].wc == One(InWc(x, c)) - One(WasInWc(s, h, c))
    && b.sc - s.blocks[c].sc == One(InSc(x, c)) - One(WasInSc(s, h, c))
  }

  predicate OnlyBy(old_: Option<HandleId>, new_: Option<HandleId>, h: HandleId) {
    old_ == new_ || ((old_ == None || old_ == Some(h)) && (new_ == None || new_ == Some(h)))
  }

  // Other handles on the block see nothing they rely on change.
  predicate Gentle(s: State, c: BlockId, b: Block, h: HandleId, x: Handle) {
    && c in s.blocks
    && b.managed == s.blocks[c].managed && b.creator == s.blocks[c].creator
    && OnlyBy(s.blocks[c].deleter, b.deleter, h) && OnlyBy(s.blocks[c].freer, b.freer, h)
    && (b.started == s.blocks[c].started || (b.started && h == b.creator))
    && (Pinned(s, h) ==> IsIn(s, h, Live) && x.phase.Live? && x.kind == s.handles[h].kind && x.cnt == s.handles[h].cnt)
  }

  lemma RewriteCounts(s: State, c: BlockId, b: Block, h: HandleId, x: Handle, d: BlockId)
    requires Balanced(s, c, b, h, x) && d in s.blocks && CountsExact(s, d)
    ensures CountsExact(Rewrite(s, c, b, h, x), d)
  {
    var u := PutBlock(s, c, b);
    assert WeakHolders(u, d) == WeakHolders(s, d) && StrongHolders(u, d) == StrongHolders(s, d);
    HoldersAfter(u, h, x, d);
    OneHolder(WeakHolders(s, d), h, InWc(x, d), WasInWc(s, h, d));
    OneHolder(StrongHolders(s, d), h, InSc(x, d), WasInSc(s, h, d));
  }

  lemma OneHolder(before: set<HandleId>, h: HandleId, isIn: bool, wasIn: bool)
    requires wasIn <==> h in before
    ensures |if isIn then before + {h} else before - {h}| == |before| + One(isIn) - One(wasIn)
  {
    if wasIn {
      assert before + {h} == before;
    } else {
      assert before - {h} == before;
    }
  }

  lemma RewriteHandle(s: State, c: BlockId, b: Block, h: HandleId, x: Handle, g: HandleId)
    requires Gentle(s, c, b, h, x) && g in s.handles && g != h && HandleOk(s, g, s.handles[g])
    ensures HandleOk(Rewrite(s, c, b, h, x), g, s.handles[g])
  {
    var y := s.handles[g];
    if y.source == Some(h) {
      assert Pinned(s, h);
    }
  }

  lemma RewriteBlock(s: State, c: BlockId, b: Block, h: HandleId, x: Handle, d: BlockId)
    requires Balanced(s, c, b, h, x) && d in s.blocks && d != c && BlockOk(s, d, s.blocks[d])
    ensures BlockOk(Rewrite(s, c, b, h, x), d, s.blocks[d])
  {
  }

  lemma RewriteKeeps(s: State, c: BlockId, b: Block, h: HandleId, x: Handle)
    requires Inv(s) && Balanced(s, c, b, h, x) && Gentle(s, c, b, h, x)
    requires BlockOk(Rewrite(s, c, b, h, x), c, b) && HandleOk(Rewrite(s, c, b, h, x), h, x)
    ensures Inv(Rewrite(s, c, b, h, x))
  {
    var t := Rewrite(s, c, b, h, x);
    forall d | d in t.blocks
      ensures CountsExact(t, d) && BlockOk(t, d, t.blocks[d])
    {
      RewriteCounts(s, c, b, h, x, d);
      if d != c {
        RewriteBlock(s, c, b, h, x, d);
      }
    }
    forall g | g in t.handles
      ensures HandleOk(t, g, t.handles[g])
    {
      if g != h {
        RewriteHandle(s, c, b, h, x, g);
      }
    }
  }

  // All that RewriteKeeps asks of a step, and all of it local.
  ghost predicate Fits(s: State, c: BlockId, b: Block, h: HandleId, x: Handle) {
    && Balanced(s, c, b, h, x) && Gentle(s, c, b, h, x)
    && BlockOk(Rewrite(s, c, b, h, x), c, b) && HandleOk(Rewrite(s, c, b, h, x), h, x)
  }

  // What the invariant says of one handle and its block.
  ghost predicate Local(s: State, h: HandleId) {
    && OnBlock(s, h) && HandleOk(s, h, s.handles[h])
    && BlockOk(s, s.handles[h].cnt, s.blocks[s.handles[h].cnt]) && CountsExact(s, s.handles[h].cnt)
  }

  lemma IsLocal(s: State, h: HandleId)
    requires Inv(s) && h in s.handles
    ensures Local(s, h)
  {
    assert HandleOk(s, h, s.handles[h]);
  }

  lemma StepByRewrite(s: State, a: Action, c: BlockId, b: Block, h: HandleId, x: Handle)
    requires Inv(s) && Enabled(s, a) && Fits(s, c, b, h, x) && Step(s, a) == Rewrite(s, c, b, h, x)
    ensures Inv(Step(s, a))
  {
    RewriteKeeps(s, c, b, h, x);
  }

  // ---------- what is alive ----------

  lemma CountedBlockIsAlive(s: State, h: HandleId)
    requires Inv(s) && h in s.handles && InWc(s.handles[h], s.handles[h].cnt)
    ensures var b := s.blocks[s.handles[h].cnt]; b.wc > 0 && b.frees == 0 && b.freer.None?
  {
    assert HandleOk(s, h, s.handles[h]);
    var c := s.handles[h].cnt;
    assert BlockOk(s, c, s.blocks[c]) && CountsExact(s, c);
    assert h in WeakHolders(s, c);
  }

  lemma HeldObjectIsAlive(s: State, h: HandleId)
    requires Inv(s) && h in s.handles && InSc(s.handles[h], s.handles[h].cnt)
    ensures var b := s.blocks[s.handles[h].cnt]; b.sc > 0 && b.deletes == 0 && b.deleter.None?
  {
    assert HandleOk(s, h, s.handles[h]);
    var c := s.handles[h].cnt;
    assert BlockOk(s, c, s.blocks[c]) && CountsExact(s, c);
    assert h in StrongHolders(s, c);
  }

  lemma NullsAreAlive(s: State)
    requires Inv(s)
    ensures s.blocks[0].frees == 0 && s.blocks[0].freer.None? && s.blocks[0].deleter.None? && s.blocks[0].deletes == 0
    ensures s.blocks[0].wc > 0 && s.blocks[0].sc > 0 && s.blocks[0].started
  {
    assert CountsExact(s, 0) && BlockOk(s, 0, s.blocks[0]);
  }

  // A handle under construction: the block it is about to count in lives.
  lemma PendingBlockIsAlive(s: State, h: HandleId)
    requires Inv(s) && (IsIn(s, h, Reading) || IsIn(s, h, Counted))
    ensures OnBlock(s, h)
    ensures var b := s.blocks[s.handles[h].cnt]; b.frees == 0 && b.freer.None?
    ensures s.handles[h].kind.Strong? ==> var b := s.blocks[s.handles[h].cnt]; b.deletes == 0 && b.deleter.None?
  {
    var x := s.handles[h];
    assert HandleOk(s, h, x);
    assert BlockOk(s, x.cnt, s.blocks[x.cnt]);
    if x.source.Some? {
      CountedBlockIsAlive(s, x.source.value);
      if x.kind.Strong? {
        HeldObjectIsAlive(s, x.source.value);
      }
    } else if x.cnt == 0 {
      NullsAreAlive(s);
    }
  }

  lemma NobodyPins(s: State, h: HandleId)
    requires Inv(s) && (h !in s.handles || !s.handles[h].phase.Live?)
    ensures !Pinned(s, h)
  {
    forall x | x in s.handles
      ensures s.handles[x].source != Some(h)
    {
      assert HandleOk(s, x, s.handles[x]);
    }
  }

  // ---------- the steps ----------

  lemma BeginFits(s: State, a: Action)
    requires Enabled(s, a) && (a.NewNull? || a.BeginCopy?) && !Pinned(s, a.h)
    requires if a.BeginCopy? then Local(s, a.src)
             else BlockOk(s, 0, s.blocks[0]) && s.blocks[0].started && s.blocks[0].deleter.None? && s.blocks[0].freer.None?
    ensures var x := Step(s, a).handles[a.h];
            && x.cnt in s.blocks && Fits(s, x.cnt, s.blocks[x.cnt], a.h, x)
            && Step(s, a) == Rewrite(s, x.cnt, s.blocks[x.cnt], a.h, x)
  {
    var x := Step(s, a).handles[a.h];
    assert s.blocks[x.cnt := s.blocks[x.cnt]] == s.blocks;
  }

  lemma BeginsKeep(s: State, a: Action)
    requires Inv(s) && Enabled(s, a) && (a.NewNull? || a.BeginCopy?)
    ensures Inv(Step(s, a))
  {
    NobodyPins(s, a.h);
    if a.BeginCopy? {
      IsLocal(s, a.src);
    } else {
      NullsAreAlive(s);
    }
    BeginFits(s, a);
    var x := Step(s, a).handles[a.h];
    StepByRewrite(s, a, x.cnt, s.blocks[x.cnt], a.h, x);
  }

  lemma AttachFits(s: State, h: HandleId)
    requires Enabled(s, Attach(h)) && Local(s, h) && !Pinned(s, h)
    requires s.blocks[s.handles[h].cnt].frees == 0 && s.blocks[s.handles[h].cnt].freer.None?
    requires s.handles[h].source != Some(h)
    ensures var c, t := s.handles[h].cnt, Step(s, Attach(h));
            Fits(s, c, t.blocks[c], h, t.handles[h]) && t == Rewrite(s, c, t.blocks[c], h, t.handles[h])
  {
  }

  lemma AttachKeeps(s: State, h: HandleId)
    requires Inv(s) && Enabled(s, Attach(h))
    ensures Inv(Step(s, Attach(h)))
  {
    PendingBlockIsAlive(s, h);
    NobodyPins(s, h);
    IsLocal(s, h);
    AttachFits(s, h);
    var c, t := s.handles[h].cnt, Step(s, Attach(h));
    StepByRewrite(s, Attach(h), c, t.blocks[c], h, t.handles[h]);
  }

  lemma AttachStrongKeeps(s: State, h: HandleId)
    requires Inv(s) && Enabled(s, AttachStrong(h))
    ensures Inv(Step(s, AttachStrong(h)))
  {
    var x := s.handles[h];
    var b, t := s.blocks[x.cnt], Step(s, AttachStrong(h));
    PendingBlockIsAlive(s, h);
    NobodyPins(s, h);
    assert HandleOk(s, h, x) && BlockOk(s, x.cnt, b) && CountsExact(s, x.cnt);
    CountedBlockIsAlive(s, h);
    RewriteKeeps(s, x.cnt, t.blocks[x.cnt], h, t.handles[h]);
  }

  lemma LastDetachStrong(s: State, h: HandleId)
    requires Inv(s) && Enabled(s, DetachStrong(h)) && s.blocks[s.handles[h].cnt].sc == 1
    ensures Inv(Step(s, DetachStrong(h)))
  {
    var x := s.handles[h];
    var b, t := s.blocks[x.cnt], Step(s, DetachStrong(h));
    assert HandleOk(s, h, x) && BlockOk(s, x.cnt, b) && CountsExact(s, x.cnt);
    HeldObjectIsAlive(s, h);
    CountedBlockIsAlive(s, h);
    RewriteKeeps(s, x.cnt, t.blocks[x.cnt], h, t.handles[h]);
  }

  lemma NotLastDetachStrong(s: State, h: HandleId)
    requires Inv(s) && Enabled(s, DetachStrong(h)) && s.blocks[s.handles[h].cnt].sc != 1
    ensures Inv(Step(s, DetachStrong(h)))
  {
    var x := s.handles[h];
    var b, t := s.blocks[x.cnt], Step(s, DetachStrong(h));
    assert HandleOk(s, h, x) && BlockOk(s, x.cnt, b) && CountsExact(s, x.cnt);
    HeldObjectIsAlive(s, h);
    CountedBlockIsAlive(s, h);
    RewriteKeeps(s, x.cnt, t.blocks[x.cnt], h, t.handles[h]);
  }

  lemma DeleteObjectKeeps(s: State, h: HandleId)
    requires Inv(s) && Enabled(s, DeleteObject(h))
    ensures Inv(Step(s, DeleteObject(h)))
  {
    var x := s.handles[h];
    var b, t := s.blocks[x.cnt], Step(s, DeleteObject(h));
    assert HandleOk(s, h, x) && BlockOk(s, x.cnt, b) && CountsExact(s, x.cnt);
    NobodyPins(s, h);
    RewriteKeeps(s, x.cnt, t.blocks[x.cnt], h, t.handles[h]);
  }

  lemma DetachWeakFits(s: State, h: HandleId)
    requires Enabled(s, DetachWeak(h)) && Local(s, h)
    requires s.blocks[s.handles[h].cnt].frees == 0 && s.blocks[s.handles[h].cnt].freer.None?
    requires s.blocks[s.handles[h].cnt].wc > 0
    ensures var c, t := s.handles[h].cnt, Step(s, DetachWeak(h));
            Fits(s, c, t.blocks[c], h, t.handles[h]) && t == Rewrite(s, c, t.blocks[c], h, t.handles[h])
  {
    if s.blocks[s.handles[h].cnt].wc == 1 {
      LastDetachWeakFits(s, h);
    } else {
      NotLastDetachWeakFits(s, h);
    }
  }

  lemma LastDetachWeakFits(s: State, h: HandleId)
    requires Enabled(s, DetachWeak(h)) && Local(s, h) && s.blocks[s.handles[h].cnt].wc == 1
    requires s.blocks[s.handles[h].cnt].frees == 0 && s.blocks[s.handles[h].cnt].freer.None?
    ensures var c, t := s.handles[h].cnt, Step(s, DetachWeak(h));
            Fits(s, c, t.blocks[c], h, t.handles[h]) && t == Rewrite(s, c, t.blocks[c], h, t.handles[h])
  {
  }

  lemma NotLastDetachWeakFits(s: State, h: HandleId)
    requires Enabled(s, DetachWeak(h)) && Local(s, h) && s.blocks[s.handles[h].cnt].wc > 1
    requires s.blocks[s.handles[h].cnt].frees == 0 && s.blocks[s.handles[h].cnt].freer.None?
    ensures var c, t := s.handles[h].cnt, Step(s, DetachWeak(h));
            Fits(s, c, t.blocks[c], h, t.handles[h]) && t == Rewrite(s, c, t.blocks[c], h, t.handles[h])
  {
  }

  lemma DetachWeakKeeps(s: State, h: HandleId)
    requires Inv(s) && Enabled(s, DetachWeak(h))
    ensures Inv(Step(s, DetachWeak(h)))
  {
    IsLocal(s, h);
    CountedBlockIsAlive(s, h);
    DetachWeakFits(s, h);
    var c, t := s.handles[h].cnt, Step(s, DetachWeak(h));
    StepByRewrite(s, DetachWeak(h), c, t.blocks[c], h, t.handles[h]);
  }

  lemma FreeBlockFits(s: State, h: HandleId)
    requires Enabled(s, FreeBlock(h)) && Local(s, h) && !Pinned(s, h)
    ensures var c, t := s.handles[h].cnt, Step(s, FreeBlock(h));
            Fits(s, c, t.blocks[c], h, t.handles[h]) && t == Rewrite(s, c, t.blocks[c], h, t.handles[h])
  {
  }

  lemma FreeBlockKeeps(s: State, h: HandleId)
    requires Inv(s) && Enabled(s, FreeBlock(h))
    ensures Inv(Step(s, FreeBlock(h)))
  {
    IsLocal(s, h);
    NobodyPins(s, h);
    FreeBlockFits(s, h);
    var c, t := s.handles[h].cnt, Step(s, FreeBlock(h));
    StepByRewrite(s, FreeBlock(h), c, t.blocks[c], h, t.handles[h]);
  }

  lemma NewSharedOldBlock(s: State, a: Action, d: BlockId)
    requires Enabled(s, a) && a.NewShared? && d in s.blocks && BlockOk(s, d, s.blocks[d]) && CountsExact(s, d)
    ensures d in Step(s, a).blocks && CountsExact(Step(s, a), d) && BlockOk(Step(s, a), d, Step(s, a).blocks[d])
  {
    var t := Step(s, a);
    assert WeakHolders(t, d) == WeakHolders(s, d) && StrongHolders(t, d) == StrongHolders(s, d);
  }

  lemma NewSharedNewBlock(s: State, a: Action)
    requires Enabled(s, a) && a.NewShared? && forall h | h in s.handles :: s.handles[h].cnt != a.c
    requires 0 in s.blocks
    ensures a.c in Step(s, a).blocks
    ensures CountsExact(Step(s, a), a.c) && BlockOk(Step(s, a), a.c, Step(s, a).blocks[a.c])
  {
    var t := Step(s, a);
    assert WeakHolders(t, a.c) == {} && StrongHolders(t, a.c) == {};
  }

  lemma NewSharedBlocks(s: State, a: Action, d: BlockId)
    requires Inv(s) && Enabled(s, a) && a.NewShared? && (d in s.blocks || d == a.c)
    ensures d in Step(s, a).blocks && CountsExact(Step(s, a), d) && BlockOk(Step(s, a), d, Step(s, a).blocks[d])
  {
    if d == a.c {
      forall h | h in s.handles
        ensures s.handles[h].cnt != d
      {
        assert HandleOk(s, h, s.handles[h]);
      }
      NewSharedNewBlock(s, a);
    } else {
      NewSharedOldBlock(s, a, d);
    }
  }

  lemma NewSharedHandles(s: State, a: Action, h: HandleId)
    requires Inv(s) && Enabled(s, a) && a.NewShared? && h in Step(s, a).handles
    ensures HandleOk(Step(s, a), h, Step(s, a).handles[h])
  {
    if h != a.h {
      assert HandleOk(s, h, s.handles[h]);
    }
  }

  lemma NewSharedKeeps(s: State, a: Action)
    requires Inv(s) && Enabled(s, a) && a.NewShared?
    ensures Inv(Step(s, a))
  {
    forall d | d in Step(s, a).blocks
      ensures CountsExact(Step(s, a), d) && BlockOk(Step(s, a), d, Step(s, a).blocks[d])
    {
      NewSharedBlocks(s, a, d);
    }
    forall h | h in Step(s, a).handles
      ensures HandleOk(Step(s, a), h, Step(s, a).handles[h])
    {
      NewSharedHandles(s, a, h);
    }
  }

  lemma TradePlaces<T>(before: set<T>, h: T, g: T, after: set<T>)
    requires h != g
    requires var mid := if g in before then before + {h} else before - {h};
             after == if h in before then mid + {g} else mid - {g}
    ensures |after| == |before|
  {
    if h in before && g !in before {
      assert after == before - {h} + {g};
    } else if h !in before && g in before {
      assert after == before + {h} - {g};
    } else {
      assert after == before;
    }
  }

  lemma SwapHolders(s: State, h: HandleId, g: HandleId, d: BlockId)
    requires Enabled(s, Swap(h, g)) && h != g
    ensures |WeakHolders(Step(s, Swap(h, g)), d)| == |WeakHolders(s, d)|
    ensures |StrongHolders(Step(s, Swap(h, g)), d)| == |StrongHolders(s, d)|
  {
    var x, y := s.handles[h], s.handles[g];
    var x', y' := x.(cnt := y.cnt, obj := y.obj), y.(cnt := x.cnt, obj := x.obj);
    HoldersAfter(s, h, x', d);
    HoldersAfter(PutHandle(s, h, x'), g, y', d);
    TradePlaces(WeakHolders(s, d), h, g, WeakHolders(Step(s, Swap(h, g)), d));
    TradePlaces(StrongHolders(s, d), h, g, StrongHolders(Step(s, Swap(h, g)), d));
  }

  lemma SwapBlocks(s: State, h: HandleId, g: HandleId, d: BlockId)
    requires Enabled(s, Swap(h, g)) && h != g && d in s.blocks && CountsExact(s, d) && BlockOk(s, d, s.blocks[d])
    ensures CountsExact(Step(s, Swap(h, g)), d) && BlockOk(Step(s, Swap(h, g)), d, s.blocks[d])
  {
    SwapHolders(s, h, g, d);
    SwappedBlockOk(s, Step(s, Swap(h, g)), h, g, d);
  }

  lemma SwappedBlockOk(s: State, t: State, h: HandleId, g: HandleId, d: BlockId)
    requires d in s.blocks && BlockOk(s, d, s.blocks[d]) && IsIn(s, h, Live) && IsIn(s, g, Live)
    requires s.handles.Keys <= t.handles.Keys
    requires forall i | i in s.handles && i != h && i != g :: t.handles[i] == s.handles[i]
    ensures BlockOk(t, d, s.blocks[d])
  {
  }

  // A live handle may stand on any block on which its object is the right one.
  lemma MovedHandle(s: State, h: HandleId, x: Handle)
    requires h in s.handles && x.phase.Live? && x.locking.None? && x.source.None? && s.handles[h].phase.Live?
    requires x.cnt in s.blocks && BlockOk(s, x.cnt, s.blocks[x.cnt]) && s.blocks[x.cnt].started
    requires x.obj == if s.blocks[x.cnt].managed then Some(x.cnt) else None
    ensures HandleOk(s, h, x)
  {
  }

  // A live handle on a block that has its first strong count.
  predicate Stands(s: State, h: HandleId) {
    h in s.handles &&
    var x := s.handles[h];
    && x.cnt in s.blocks && s.blocks[x.cnt].started && BlockOk(s, x.cnt, s.blocks[x.cnt])
    && x.source.None? && x.locking.None?
    && x.obj == if s.blocks[x.cnt].managed then Some(x.cnt) else None
  }

  lemma LiveIsStarted(s: State, h: HandleId)
    requires Inv(s) && IsIn(s, h, Live)
    ensures Stands(s, h)
  {
    assert HandleOk(s, h, s.handles[h]);
  }

  lemma SwapKeepsOther(s: State, t: State, h: HandleId, g: HandleId, e: HandleId)
    requires e in s.handles && HandleOk(s, e, s.handles[e])
    requires s.handles[e].source != Some(h) && s.handles[e].source != Some(g)
    requires t.blocks == s.blocks && s.handles.Keys <= t.handles.Keys
    requires forall i | i in s.handles && i != h && i != g :: t.handles[i] == s.handles[i]
    ensures HandleOk(t, e, s.handles[e])
  {
  }

  lemma SwappedHandle(s: State, t: State, h: HandleId, g: HandleId, e: HandleId)
    requires Enabled(s, Swap(h, g)) && h != g && t == Step(s, Swap(h, g)) && (e == h || e == g)
    requires Stands(s, h) && Stands(s, g)
    ensures HandleOk(t, e, t.handles[e])
  {
    SwappedBlockOk(s, t, h, g, t.handles[e].cnt);
    MovedHandle(t, e, t.handles[e]);
  }

  lemma SwapHandles(s: State, t: State, h: HandleId, g: HandleId, e: HandleId)
    requires Enabled(s, Swap(h, g)) && h != g && t == Step(s, Swap(h, g)) && e in s.handles
    requires Stands(s, h) && Stands(s, g) && HandleOk(s, e, s.handles[e])
    ensures HandleOk(t, e, t.handles[e])
  {
    if e == h || e == g {
      SwappedHandle(s, t, h, g, e);
    } else {
      assert s.handles[e].source != Some(h) && s.handles[e].source != Some(g);
      SwapKeepsOther(s, t, h, g, e);
    }
  }

  lemma SwapKeepsBlocks(s: State, h: HandleId, g: HandleId, t: State)
    requires Inv(s) && Enabled(s, Swap(h, g)) && h != g && t == Step(s, Swap(h, g))
    ensures forall d | d in t.blocks :: CountsExact(t, d)
    ensures forall d | d in t.blocks :: BlockOk(t, d, t.blocks[d])
  {
    forall d | d in t.blocks
      ensures CountsExact(t, d) && BlockOk(t, d, t.blocks[d])
    {
      SwapBlocks(s, h, g, d);
    }
  }

  lemma SwapKeepsHandles(s: State, h: HandleId, g: HandleId, t: State)
    requires Inv(s) && Enabled(s, Swap(h, g)) && h != g && t == Step(s, Swap(h, g))
    ensures forall e | e in t.handles :: HandleOk(t, e, t.handles[e])
  {
    LiveIsStarted(s, h);
    LiveIsStarted(s, g);
    forall e | e in t.handles
      ensures HandleOk(t, e, t.handles[e])
    {
      SwapHandles(s, t, h, g, e);
    }
  }

  lemma SwapWithItself(s: State, h: HandleId)
    requires Enabled(s, Swap(h, h))
    ensures Step(s, Swap(h, h)) == s
  {
    assert Step(s, Swap(h, h)).handles == s.handles;
  }

  lemma SwapKeeps(s: State, h: HandleId, g: HandleId)
    requires Inv(s) && Enabled(s, Swap(h, g))
    ensures Inv(Step(s, Swap(h, g)))
  {
    if h == g {
      SwapWithItself(s, h);
    } else {
      var t := Step(s, Swap(h, g));
      SwapKeepsBlocks(s, h, g, t);
      SwapKeepsHandles(s, h, g, t);
      assert 0 in t.blocks;
    }
  }

  lemma StepKeeps(s: State, a: Action)
    requires Inv(s) && Enabled(s, a) && !IsLockAction(a)
    ensures Inv(Step(s, a))
  {
    match a {
      case NewShared(_, _, _) => NewSharedKeeps(s, a);
      case NewNull(_, _) => BeginsKeep(s, a);
      case BeginCopy(_, _, _) => BeginsKeep(s, a);
      case Attach(h) => AttachKeeps(s, h);
      case AttachStrong(h) => AttachStrongKeeps(s, h);
      case Swap(h, g) => SwapKeeps(s, h, g);
      case DetachStrong(h) =>
        if s.blocks[s.handles[h].cnt].sc == 1 { LastDetachStrong(s, h); } else { NotLastDetachStrong(s, h); }
      case DeleteObject(h) => DeleteObjectKeeps(s, h);
      case DetachWeak(h) => DetachWeakKeeps(s, h);
      case FreeBlock(h) => FreeBlockKeeps(s, h);
      case _ =>
    }
  }

  predicate NoLock(acts: seq<Action>) {
    forall i :: 0 <= i < |acts| ==> !IsLockAction(acts[i])
  }

  lemma {:induction false} RunKeeps(s: State, acts: seq<Action>)
    requires Inv(s) && CanRun(s, acts) && NoLock(acts)
    ensures Inv(Run(s, acts))
    decreases acts
  {
    if acts != [] {
      StepKeeps(s, acts[0]);
      assert forall i :: 0 <= i < |acts[1..]| ==> acts[1..][i] == acts[i + 1];
      RunKeeps(Step(s, acts[0]), acts[1..]);
    }
  }

  lemma InitialInv()
    ensures Inv(Initial)
  {
    assert WeakHolders(Initial, 0) == {} && StrongHolders(Initial, 0) == {};
  }

  // ---------- the theorems ----------

  // The counters equal the handles that hold them, with a bias of 1 on
  // forNulls.
  lemma CountersAreExact(acts: seq<Action>, c: BlockId)
    requires CanRun(Initial, acts) && NoLock(acts) && c in Run(Initial, acts).blocks
    ensures var s := Run(Initial, acts);
            && s.blocks[c].sc == Bias(c) + |StrongHolders(s, c)|
            && s.blocks[c].wc == Bias(c) + |WeakHolders(s, c)|
  {
    InitialInv();
    RunKeeps(Initial, acts);
  }

  // Each object is deleted at most once, and exactly when its last strong
  // handle has detached; each block likewise with its last handle of any kind.
  lemma LastHolderCleansUp(acts: seq<Action>, c: BlockId)
    requires CanRun(Initial, acts) && NoLock(acts) && c in Run(Initial, acts).blocks
    requires c != 0
    ensures var s := Run(Initial, acts);
            var b := s.blocks[c];
            && b.deletes <= 1 && b.frees <= 1
            && (b.managed ==>
                  (b.deletes == 1 || b.deleter.Some? <==> b.started && StrongHolders(s, c) == {}))
            && (b.frees == 1 || b.freer.Some? <==> b.started && WeakHolders(s, c) == {})
            && (!b.managed ==> b.deletes == 0)
  {
    InitialInv();
    RunKeeps(Initial, acts);
    var s := Run(Initial, acts);
    assert CountsExact(s, c) && BlockOk(s, c, s.blocks[c]);
  }

  // forNulls outlives every run.
  lemma NullsNeverDie(acts: seq<Action>)
    requires CanRun(Initial, acts) && NoLock(acts)
    ensures 0 in Run(Initial, acts).blocks
    ensures Run(Initial, acts).blocks[0].frees == 0 && Run(Initial, acts).blocks[0].deletes == 0
  {
    InitialInv();
    RunKeeps(Initial, acts);
    NullsAreAlive(Run(Initial, acts));
  }

  // The block whose counters a step reads or writes.
  function Uses(s: State, a: Action): Option<BlockId> {
    match a
    case NewShared(_, _, _) => None
    case NewNull(_, _) => Some(0)
    case BeginCopy(_, _, src) => if src in s.handles then Some(s.handles[src].cnt) else None
    case Swap(_, _) => None
    case LockAdopt(_, w) => if w in s.handles then Some(s.handles[w].cnt) else None
    case Attach(h) => if h in s.handles then Some(s.handles[h].cnt) else None
    case AttachStrong(h) => if h in s.handles then Some(s.handles[h].cnt) else None
    case DetachStrong(h) => if h in s.handles then Some(s.handles[h].cnt) else None
    case DeleteObject(h) => if h in s.handles then Some(s.handles[h].cnt) else None
    case DetachWeak(h) => if h in s.handles then Some(s.handles[h].cnt) else None
    case FreeBlock(h) => if h in s.handles then Some(s.handles[h].cnt) else None
    case LockBegin(h) => if h in s.handles then Some(s.handles[h].cnt) else None
    case LockEnd(h) => if h in s.handles then Some(s.handles[h].cnt) else None
  }

  // No step touches a freed block, and a live strong handle's object lives.
  lemma NothingDeadIsUsed(acts: seq<Action>, a: Action)
    requires CanRun(Initial, acts) && NoLock(acts)
    requires Enabled(Run(Initial, acts), a) && !IsLockAction(a)
    ensures var s := Run(Initial, acts);
            && (Uses(s, a).Some? ==> Uses(s, a).value in s.blocks && s.blocks[Uses(s, a).value].frees == 0)
            && (forall h | h in s.handles && InSc(s.handles[h], s.handles[h].cnt) ::
                  s.handles[h].cnt in s.blocks && s.blocks[s.handles[h].cnt].deletes == 0)
  {
    var s := Run(Initial, acts);
    InitialInv();
    RunKeeps(Initial, acts);
    UsesLiveBlock(s, a);
    forall h | h in s.handles && InSc(s.handles[h], s.handles[h].cnt)
      ensures s.handles[h].cnt in s.blocks && s.blocks[s.handles[h].cnt].deletes == 0
    {
      assert HandleOk(s, h, s.handles[h]);
      HeldObjectIsAlive(s, h);
    }
  }

  lemma UsesLiveBlock(s: State, a: Action)
    requires Inv(s) && Enabled(s, a) && !IsLockAction(a)
    ensures Uses(s, a).Some? ==> Uses(s, a).value in s.blocks && s.blocks[Uses(s, a).value].frees == 0
  {
    match a {
      case NewNull(_, _) => NullsAreAlive(s);
      case BeginCopy(_, _, src) => CountedBlockIsAlive(s, src);
      case Attach(h) => PendingBlockIsAlive(s, h);
      case AttachStrong(h) => PendingBlockIsAlive(s, h);
      case DetachStrong(h) => CountedBlockIsAlive(s, h);
      case DeleteObject(h) => CountedBlockIsAlive(s, h);
      case DetachWeak(h) => CountedBlockIsAlive(s, h);
      case FreeBlock(h) =>
        assert HandleOk(s, h, s.handles[h]);
        assert BlockOk(s, s.handles[h].cnt, s.blocks[s.handles[h].cnt]);
      case _ =>
    }
  }
}
