// The counters under SharedPtr and WeakPtr: handles of any number of threads
// are built, copied, swapped and destroyed in atomic count steps that
// interleave freely.
module RefCount {
  import opened Common

  type HandleId = nat

  // A Counters block; block 0 is forNulls.  The object a block manages is the
  // one that was passed to the constructor together with it.
  type BlockId = nat

  datatype Kind = Strong | Weak

  datatype Phase =
    | Reading      // has copied pObj and cnt, nothing counted yet
    | Counted      // counted in wc; a SharedPtr still has to count in sc
    | Live
    | Deleting     // its detach took sc to 0: `delete pObj` is next
    | Detached     // SharedPtr: out of sc, still in wc
    | Freeing      // its detach took wc to 0: `delete cnt` is next
    | Gone

  datatype Handle = Handle(
    kind: Kind,
    phase: Phase,
    cnt: BlockId,
    obj: Option<BlockId>,          // pObj; None is the null pointer
    source: Option<HandleId>,      // the handle it is being copied from
    locking: Option<int>)          // inside WeakPtr::lock: the count it saw

  datatype Block = Block(
    sc: int,
    wc: int,
    managed: bool,                 // the pointer passed in was not null
    creator: HandleId,
    started: bool,                 // history: the creator has counted itself in sc
    deleter: Option<HandleId>,     // the handle in phase Deleting
    deletes: nat,                  // history: how often `delete pObj` ran
    freer: Option<HandleId>,       // the handle in phase Freeing
    frees: nat)                    // history: how often `delete cnt` ran

  datatype State = State(blocks: map<BlockId, Block>, handles: map<HandleId, Handle>)

  datatype Action =
    | NewShared(h: HandleId, c: BlockId, managed: bool)   // SharedPtr(T*)
    | NewNull(h: HandleId, kind: Kind)                    // SharedPtr(), WeakPtr()
    | BeginCopy(h: HandleId, kind: Kind, src: HandleId)   // copy or convert: read the pointers
    | Attach(h: HandleId)                                 // WeakPtr::attach
    | AttachStrong(h: HandleId)                           // SharedPtr::attach
    | Swap(h: HandleId, g: HandleId)
    | DetachStrong(h: HandleId)                           // ~SharedPtr: the decrement
    | DeleteObject(h: HandleId)
    | DetachWeak(h: HandleId)                             // ~WeakPtr: the decrement
    | FreeBlock(h: HandleId)
    | LockBegin(h: HandleId)                              // WeakPtr::lock: increment sc
    | LockAdopt(h: HandleId, w: HandleId)                 // SharedPtr(T*, Counters*)
    | LockEnd(h: HandleId)                                // decrement sc

  const Initial := State(map[0 := Block(1, 1, false, 0, true, None, 0, None, 0)], map[])

  // Client rule: a handle is not changed or destroyed while it is copied.
  predicate Pinned(s: State, h: HandleId) {
    exists x | x in s.handles :: s.handles[x].source == Some(h)
  }

  predicate IsIn(s: State, h: HandleId, p: Phase) {
    h in s.handles && s.handles[h].phase == p
  }

  predicate OnBlock(s: State, h: HandleId) {
    h in s.handles && s.handles[h].cnt in s.blocks
  }

  predicate Enabled(s: State, a: Action) {
    match a
    case NewShared(h, c, _) => h !in s.handles && c !in s.blocks
    case NewNull(h, _) => h !in s.handles && 0 in s.blocks
    case BeginCopy(h, kind, src) =>
      h !in s.handles && IsIn(s, src, Live) && OnBlock(s, src) && (kind == Strong ==> s.handles[src].kind == Strong)
    case Attach(h) => IsIn(s, h, Reading) && OnBlock(s, h)
    case AttachStrong(h) => IsIn(s, h, Counted) && OnBlock(s, h)
    case Swap(h, g) =>
      IsIn(s, h, Live) && IsIn(s, g, Live) && s.handles[h].kind == s.handles[g].kind && !Pinned(s, h) && !Pinned(s, g)
      && s.handles[h].locking.None? && s.handles[g].locking.None?
    case DetachStrong(h) => IsIn(s, h, Live) && OnBlock(s, h) && s.handles[h].kind == Strong && !Pinned(s, h)
    case DeleteObject(h) => IsIn(s, h, Deleting) && OnBlock(s, h)
    case DetachWeak(h) =>
      OnBlock(s, h) && !Pinned(s, h) && s.handles[h].locking.None? &&
      s.handles[h].phase == if s.handles[h].kind == Strong then Detached else Live
    case FreeBlock(h) => IsIn(s, h, Freeing) && OnBlock(s, h)
    case LockBegin(h) => IsIn(s, h, Live) && OnBlock(s, h) && s.handles[h].kind == Weak && s.handles[h].locking.None?
    case LockAdopt(h, w) =>
      h !in s.handles && OnBlock(s, w) && s.handles[w].locking.Some? && s.handles[w].locking.value != 1 && 0 in s.blocks
    case LockEnd(h) => OnBlock(s, h) && s.handles[h].locking.Some?
  }

  predicate IsLockAction(a: Action) {
    a.LockBegin? || a.LockAdopt? || a.LockEnd?
  }

  function PutHandle(s: State, h: HandleId, x: Handle): State {
    s.(handles := s.handles[h := x])
  }

  function PutBlock(s: State, c: BlockId, b: Block): State {
    s.(blocks := s.blocks[c := b])
  }

  function Step(s: State, a: Action): State
    requires Enabled(s, a)
  {
    match a
    case NewShared(h, c, managed) =>
      PutHandle(PutBlock(s, c, Block(0, 0, managed, h, false, None, 0, None, 0)), h,
                Handle(Strong, Reading, c, if managed then Some(c) else None, None, None))
    case NewNull(h, kind) => PutHandle(s, h, Handle(kind, Reading, 0, None, None, None))
    case BeginCopy(h, kind, src) =>
      PutHandle(s, h, Handle(kind, Reading, s.handles[src].cnt, s.handles[src].obj, Some(src), None))
    case Attach(h) =>
      var x := s.handles[h];
      var b := s.blocks[x.cnt];
      PutHandle(PutBlock(s, x.cnt, b.(wc := b.wc + 1)), h,
                if x.kind == Strong then x.(phase := Counted) else x.(phase := Live, source := None))
    case AttachStrong(h) =>
      var x := s.handles[h];
      var b := s.blocks[x.cnt];
      PutHandle(PutBlock(s, x.cnt, b.(sc := b.sc + 1, started := true)), h, x.(phase := Live, source := None))
    case Swap(h, g) =>
      var x, y := s.handles[h], s.handles[g];
      PutHandle(PutHandle(s, h, x.(cnt := y.cnt, obj := y.obj)), g, y.(cnt := x.cnt, obj := x.obj))
    case DetachStrong(h) =>
      var x := s.handles[h];
      var b := s.blocks[x.cnt];
      if b.sc - 1 == 0 then
        PutHandle(PutBlock(s, x.cnt, b.(sc := 0, deleter := Some(h))), h, x.(phase := Deleting))
      else
        PutHandle(PutBlock(s, x.cnt, b.(sc := b.sc - 1)), h, x.(phase := Detached))
    case DeleteObject(h) =>
      var x := s.handles[h];
      var b := s.blocks[x.cnt];
      // `delete` of a null pointer does nothing
      PutHandle(PutBlock(s, x.cnt, b.(deleter := None, deletes := b.deletes + if x.obj.Some? then 1 else 0)), h,
                x.(phase := Detached, obj := None))
    case DetachWeak(h) =>
      var x := s.handles[h];
      var b := s.blocks[x.cnt];
      if b.wc - 1 == 0 then
        PutHandle(PutBlock(s, x.cnt, b.(wc := 0, freer := Some(h))), h, x.(phase := Freeing))
      else
        PutHandle(PutBlock(s, x.cnt, b.(wc := b.wc - 1)), h, x.(phase := Gone))
    case FreeBlock(h) =>
      var x := s.handles[h];
      var b := s.blocks[x.cnt];
      PutHandle(PutBlock(s, x.cnt, b.(freer := None, frees := b.frees + 1)), h, x.(phase := Gone))
    case LockBegin(h) =>
      var x := s.handles[h];
      var b := s.blocks[x.cnt];
      PutHandle(PutBlock(s, x.cnt, b.(sc := b.sc + 1)), h, x.(locking := Some(b.sc + 1)))
    case LockAdopt(h, w) =>
      // ptr() counts the new handle in forNulls.wc, then cnt is overwritten
      var x := s.handles[w];
      var s0 := PutBlock(s, 0, s.blocks[0].(wc := s.blocks[0].wc + 1));
      var b := s0.blocks[x.cnt];
      PutHandle(PutBlock(s0, x.cnt, b.(sc := b.sc + 1)), h, Handle(Strong, Live, x.cnt, x.obj, None, None))
    case LockEnd(h) =>
      var x := s.handles[h];
      var b := s.blocks[x.cnt];
      PutHandle(PutBlock(s, x.cnt, b.(sc := b.sc - 1)), h, x.(locking := None))
  }

  predicate CanRun(s: State, acts: seq<Action>)
    decreases acts
  {
    acts == [] || (Enabled(s, acts[0]) && CanRun(Step(s, acts[0]), acts[1..]))
  }

  function Run(s: State, acts: seq<Action>): State
    requires CanRun(s, acts)
    decreases acts
  {
    if acts == [] then s else Run(Step(s, acts[0]), acts[1..])
  }

  lemma Prepend(s: State, a: Action, t: State, rest: seq<Action>)
    requires Enabled(s, a) && Step(s, a) == t && CanRun(t, rest)
    ensures CanRun(s, [a] + rest) && Run(s, [a] + rest) == Run(t, rest)
  {
    assert ([a] + rest)[1..] == rest;
  }

  lemma {:induction false} RunConcat(s: State, xs: seq<Action>, ys: seq<Action>)
    requires CanRun(s, xs) && CanRun(Run(s, xs), ys)
    ensures CanRun(s, xs + ys) && Run(s, xs + ys) == Run(Run(s, xs), ys)
    decreases xs
  {
    if xs == [] {
      assert xs + ys == ys;
    } else {
      assert (xs + ys)[1..] == xs[1..] + ys;
      RunConcat(Step(s, xs[0]), xs[1..], ys);
    }
  }

  // ---------- who holds what ----------

  predicate InWc(x: Handle, c: BlockId) {
    x.cnt == c && (x.phase.Counted? || x.phase.Live? || x.phase.Deleting? || x.phase.Detached?)
  }

  predicate InSc(x: Handle, c: BlockId) {
    x.cnt == c && x.phase.Live? && x.kind.Strong?
  }

  function WeakHolders(s: State, c: BlockId): set<HandleId> {
    set h | h in s.handles && InWc(s.handles[h], c)
  }

  function StrongHolders(s: State, c: BlockId): set<HandleId> {
    set h | h in s.handles && InSc(s.handles[h], c)
  }

  function Bias(c: BlockId): nat {
    if c == 0 then 1 else 0
  }

  // ---------- the invariant ----------

  predicate CountsExact(s: State, c: BlockId)
    requires c in s.blocks
  {
    && s.blocks[c].sc == Bias(c) + |StrongHolders(s, c)|
    && s.blocks[c].wc == Bias(c) + |WeakHolders(s, c)|
  }

  predicate BlockOk(s: State, c: BlockId, b: Block) {
    && b.frees <= 1 && b.deletes <= 1
    && (c == 0 ==> b.started && !b.managed)
    && (b.deleter.Some? ==> IsIn(s, b.deleter.value, Deleting) && s.handles[b.deleter.value].cnt == c && b.deletes == 0)
    && (b.freer.Some? ==> IsIn(s, b.freer.value, Freeing) && s.handles[b.freer.value].cnt == c && b.frees == 0)
    && (b.deletes > 0 ==> b.managed)
    // the object dies exactly with the last strong handle
    && (b.started && b.sc == 0 && b.managed ==> b.deleter.Some? || b.deletes == 1)
    && (b.deleter.Some? || b.deletes == 1 ==> b.started && b.sc == 0)
    // the block dies exactly with the last handle
    && (b.started && b.wc == 0 ==> b.freer.Some? || b.frees == 1)
    && (b.freer.Some? || b.frees == 1 ==> b.started && b.wc == 0)
  }

  predicate HandleOk(s: State, h: HandleId, x: Handle) {
    && x.cnt in s.blocks && x.locking.None?
    && var b := s.blocks[x.cnt];
    && (x.phase.Deleting? <==> b.deleter == Some(h))
    && (x.phase.Freeing? <==> b.freer == Some(h))
    && (x.phase.Deleting? || x.phase.Detached? || x.phase.Counted? ==> x.kind.Strong?)
    && (!x.phase.Freeing? && !x.phase.Gone? && !x.phase.Detached? ==>
          x.obj == if b.managed then Some(x.cnt) else None)
    // a block without its first strong count is known to its creator only
    && (!b.started ==> h == b.creator && x.kind.Strong? && (x.phase.Reading? || x.phase.Counted?))
    // a handle under construction is the creator, or a null, or a pinned copy
    && (x.source.Some? ==>
          && (x.phase.Reading? || x.phase.Counted?)
          && IsIn(s, x.source.value, Live) && s.handles[x.source.value].cnt == x.cnt
          && (x.kind.Strong? ==> s.handles[x.source.value].kind.Strong?))
    && (x.source.None? && (x.phase.Reading? || x.phase.Counted?) ==> x.cnt == 0 || !b.started)
  }

  ghost predicate Inv(s: State) {
    && 0 in s.blocks
    && (forall c | c in s.blocks :: CountsExact(s, c))
    && (forall c | c in s.blocks :: BlockOk(s, c, s.blocks[c]))
    && (forall h | h in s.handles :: HandleOk(s, h, s.handles[h]))
  }
}
