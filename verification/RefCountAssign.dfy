// What handles point to: copies, swaps and whole assignments.
module RefCountAssign {
  import opened Common
  import opened RefCount
  import opened RefCountProof

  // Where a handle points: its counter block and its object.
  function Aim(x: Handle): (BlockId, Option<BlockId>) {
    (x.cnt, x.obj)
  }

  // swap() exchanges what two handles point to, and nothing else.
  lemma SwapExchanges(s: State, h: HandleId, g: HandleId)
    requires Enabled(s, Swap(h, g))
    ensures var t := Step(s, Swap(h, g));
            && t.blocks == s.blocks && t.handles.Keys == s.handles.Keys
            && Aim(t.handles[h]) == Aim(s.handles[g]) && Aim(t.handles[g]) == Aim(s.handles[h])
            && (forall e | e in s.handles && e != h && e != g :: t.handles[e] == s.handles[e])
            && (forall e | e in s.handles ::
                  t.handles[e] == s.handles[e].(cnt := t.handles[e].cnt, obj := t.handles[e].obj))
  {
  }

  // ---------- a handle points where it did ----------

  predicate Moves(a: Action, h: HandleId) {
    (a.Swap? && (a.h == h || a.g == h)) || (a.DeleteObject? && a.h == h)
  }

  // Only a swap makes a handle point elsewhere, but for the null written after
  // `delete`.
  lemma StepLeavesAim(s: State, a: Action, h: HandleId)
    requires Enabled(s, a) && h in s.handles && !Moves(a, h)
    ensures h in Step(s, a).handles && Aim(Step(s, a).handles[h]) == Aim(s.handles[h])
    ensures Step(s, a).handles[h].kind == s.handles[h].kind
  {
  }

  predicate NoneMoves(acts: seq<Action>, h: HandleId) {
    forall i :: 0 <= i < |acts| ==> !Moves(acts[i], h)
  }

  lemma {:induction false} RunLeavesAim(s: State, acts: seq<Action>, h: HandleId)
    requires CanRun(s, acts) && h in s.handles && NoneMoves(acts, h)
    ensures h in Run(s, acts).handles && Aim(Run(s, acts).handles[h]) == Aim(s.handles[h])
    ensures Run(s, acts).handles[h].kind == s.handles[h].kind
    decreases acts
  {
    if acts != [] {
      assert forall i :: 0 <= i < |acts[1..]| ==> acts[1..][i] == acts[i + 1];
      StepLeavesAim(s, acts[0], h);
      RunLeavesAim(Step(s, acts[0]), acts[1..], h);
    }
  }

  // ---------- copies ----------

  // A handle being built from another: that one is live and points where the
  // new one does.
  predicate SourceOk(s: State, x: Handle) {
    x.source.Some? ==>
      && (x.phase.Reading? || x.phase.Counted?)
      && IsIn(s, x.source.value, Live) && Aim(s.handles[x.source.value]) == Aim(x)
  }

  ghost predicate Sourced(s: State) {
    forall h | h in s.handles :: SourceOk(s, s.handles[h])
  }

  lemma StepKeepsSource(s: State, a: Action, h: HandleId)
    requires Sourced(s) && Enabled(s, a) && h in Step(s, a).handles
    ensures SourceOk(Step(s, a), Step(s, a).handles[h])
  {
    if h in s.handles && s.handles[h].source.Some? {
      var q := s.handles[h].source.value;
      assert SourceOk(s, s.handles[h]) && Pinned(s, q);
      assert IsIn(s, q, Live);
    }
  }

  lemma {:induction false} RunKeepsSources(s: State, acts: seq<Action>)
    requires Sourced(s) && CanRun(s, acts)
    ensures Sourced(Run(s, acts))
    decreases acts
  {
    if acts != [] {
      forall h | h in Step(s, acts[0]).handles
        ensures SourceOk(Step(s, acts[0]), Step(s, acts[0]).handles[h])
      {
        StepKeepsSource(s, acts[0], h);
      }
      RunKeepsSources(Step(s, acts[0]), acts[1..]);
    }
  }

  predicate Finishes(s: State, a: Action, h: HandleId) {
    (a == Attach(h) && h in s.handles && s.handles[h].kind.Weak?) || a == AttachStrong(h)
  }

  // In every run, with lock() too: when a copy is finished it is live and
  // points where its source does, and that has not changed since it was read.
  lemma FinishedCopy(acts: seq<Action>, h: HandleId, q: HandleId, a: Action)
    requires CanRun(Initial, acts) && Enabled(Run(Initial, acts), a) && Finishes(Run(Initial, acts), a, h)
    requires Run(Initial, acts).handles[h].source == Some(q)
    ensures var t := Step(Run(Initial, acts), a);
            && IsIn(t, h, Live) && t.handles[h].source.None? && IsIn(t, q, Live)
            && Aim(t.handles[h]) == Aim(t.handles[q]) && Aim(t.handles[q]) == Aim(Run(Initial, acts).handles[h])
  {
    var s := Run(Initial, acts);
    RunKeepsSources(Initial, acts);
    assert SourceOk(s, s.handles[h]);
    StepLeavesAim(s, a, h);
    StepLeavesAim(s, a, q);
  }

  // ---------- assignment ----------

  // The counts one handle more or less on a block.
  function Recount(b: Block, kind: Kind, n: int): Block {
    b.(wc := b.wc + n, sc := b.sc + if kind == Strong then n else 0)
  }

  // Counting in, after the pointers are set.
  function CountIn(h: HandleId, kind: Kind): seq<Action> {
    if kind == Strong then [Attach(h), AttachStrong(h)] else [Attach(h)]
  }

  lemma CountsIn(s: State, h: HandleId) returns (t: State)
    requires Enabled(s, Attach(h))
    ensures CanRun(s, CountIn(h, s.handles[h].kind)) && t == Run(s, CountIn(h, s.handles[h].kind))
    ensures var (x, b) := (s.handles[h], s.blocks[s.handles[h].cnt]);
            && t.handles == s.handles[h := x.(phase := Live, source := None)]
            && t.blocks == s.blocks[x.cnt := Recount(b, x.kind, 1).(started := b.started || x.kind == Strong)]
  {
    var s1 := Step(s, Attach(h));
    if s.handles[h].kind == Strong {
      t := Step(s1, AttachStrong(h));
      Prepend(s1, AttachStrong(h), t, []);
      Prepend(s, Attach(h), s1, [AttachStrong(h)]);
    } else {
      t := s1;
      Prepend(s, Attach(h), t, []);
    }
  }

  // T temp(q);
  function CopySteps(t: HandleId, kind: Kind, q: HandleId): seq<Action> {
    [BeginCopy(t, kind, q)] + CountIn(t, kind)
  }

  function Copied(s: State, t: HandleId, kind: Kind, q: HandleId): State
    requires OnBlock(s, q)
  {
    var x := s.handles[q];
    PutHandle(PutBlock(s, x.cnt, Recount(s.blocks[x.cnt], kind, 1)), t, Handle(kind, Live, x.cnt, x.obj, None, None))
  }

  lemma CopyRuns(s: State, t: HandleId, kind: Kind, q: HandleId)
    requires OnBlock(s, q) && IsIn(s, q, Live) && s.handles[q].kind == kind && t !in s.handles
    requires s.blocks[s.handles[q].cnt].started
    ensures CanRun(s, CopySteps(t, kind, q)) && Run(s, CopySteps(t, kind, q)) == Copied(s, t, kind, q)
  {
    var s1 := Step(s, BeginCopy(t, kind, q));
    var u := CountsIn(s1, t);
    Prepend(s, BeginCopy(t, kind, q), s1, CountIn(t, kind));
    TwiceIsOnce(s.handles, t, s1.handles[t], u.handles[t]);
  }

  // The block after a live handle has been dropped.
  function Left(b: Block, x: Handle): Block {
    Recount(b, x.kind, -1)
    .(deletes := b.deletes + (if x.kind == Strong && b.sc == 1 && x.obj.Some? then 1 else 0),
      frees := b.frees + (if b.wc == 1 then 1 else 0))
  }

  // t is gone from s, and its block has been left.
  predicate IsDropped(s: State, t: HandleId, u: State) {
    && OnBlock(s, t) && t in u.handles && u.handles[t].phase == Gone
    && u.handles == s.handles[t := u.handles[t]]
    && u.blocks == s.blocks[s.handles[t].cnt := Left(s.blocks[s.handles[t].cnt], s.handles[t])]
  }

  function WeakSteps(s: State, t: HandleId): seq<Action>
    requires OnBlock(s, t)
  {
    if s.blocks[s.handles[t].cnt].wc == 1 then [DetachWeak(t), FreeBlock(t)] else [DetachWeak(t)]
  }

  lemma DropWeakRuns(s: State, t: HandleId) returns (u: State)
    requires Enabled(s, DetachWeak(t)) && s.blocks[s.handles[t].cnt].freer.None?
    ensures CanRun(s, WeakSteps(s, t)) && u == Run(s, WeakSteps(s, t))
    ensures var c := s.handles[t].cnt;
            var b := s.blocks[c];
            && u.handles == s.handles[t := s.handles[t].(phase := Gone)]
            && u.blocks == s.blocks[c := b.(wc := b.wc - 1, frees := b.frees + if b.wc == 1 then 1 else 0)]
  {
    var s1 := Step(s, DetachWeak(t));
    if s.blocks[s.handles[t].cnt].wc == 1 {
      u := Step(s1, FreeBlock(t));
      Prepend(s1, FreeBlock(t), u, []);
      Prepend(s, DetachWeak(t), s1, [FreeBlock(t)]);
    } else {
      u := s1;
      Prepend(s, DetachWeak(t), u, []);
    }
  }

  function StrongSteps(s: State, t: HandleId): seq<Action>
    requires OnBlock(s, t)
  {
    if s.handles[t].kind == Weak then []
    else if s.blocks[s.handles[t].cnt].sc == 1 then [DetachStrong(t), DeleteObject(t)]
    else [DetachStrong(t)]
  }

  lemma DropStrongRuns(s: State, t: HandleId) returns (u: State)
    requires OnBlock(s, t) && IsIn(s, t, Live) && s.handles[t].kind == Strong && !Pinned(s, t)
    requires s.blocks[s.handles[t].cnt].deleter.None?
    ensures CanRun(s, StrongSteps(s, t)) && u == Run(s, StrongSteps(s, t))
    ensures var c := s.handles[t].cnt;
            var b := s.blocks[c];
            && t in u.handles && u.handles[t].phase == Detached && u.handles[t].cnt == c
            && u.handles[t].kind == Strong && u.handles[t].source == s.handles[t].source
            && u.handles[t].locking == s.handles[t].locking
            && u.handles == s.handles[t := u.handles[t]]
            && u.blocks == s.blocks[c := b.(sc := b.sc - 1,
                 deletes := b.deletes + if b.sc == 1 && s.handles[t].obj.Some? then 1 else 0)]
  {
    var s1 := Step(s, DetachStrong(t));
    if s.blocks[s.handles[t].cnt].sc == 1 {
      u := Step(s1, DeleteObject(t));
      Prepend(s1, DeleteObject(t), u, []);
      Prepend(s, DetachStrong(t), s1, [DeleteObject(t)]);
    } else {
      u := s1;
      Prepend(s, DetachStrong(t), u, []);
    }
  }

  // ~T of a live handle: both counts, and what reaches 0 is cleaned up.
  function DropSteps(s: State, t: HandleId): seq<Action>
    requires OnBlock(s, t)
  {
    StrongSteps(s, t) + WeakSteps(s, t)
  }

  // Nobody copies t, and what it stands on is not being cleaned up.
  predicate Droppable(s: State, t: HandleId) {
    && OnBlock(s, t) && IsIn(s, t, Live) && !Pinned(s, t) && s.handles[t].source.None? && s.handles[t].locking.None?
    && s.blocks[s.handles[t].cnt].freer.None?
    && (s.handles[t].kind == Strong ==> s.blocks[s.handles[t].cnt].deleter.None?)
  }

  lemma DropRuns(s: State, t: HandleId) returns (u: State)
    requires Droppable(s, t)
    ensures CanRun(s, DropSteps(s, t)) && u == Run(s, DropSteps(s, t)) && IsDropped(s, t, u)
  {
    if s.handles[t].kind == Weak {
      u := DropWeakRuns(s, t);
      assert DropSteps(s, t) == WeakSteps(s, t);
    } else {
      var m := DropStrongRuns(s, t);
      StillUnpinned(s, m, t);
      u := DropWeakRuns(m, t);
      RunConcat(s, StrongSteps(s, t), WeakSteps(m, t));
      LeftByBoth(s, t, m, u);
    }
  }

  lemma LeftByBoth(s: State, t: HandleId, m: State, u: State)
    requires OnBlock(s, t) && OnBlock(m, t) && s.handles[t].kind == Strong && m.handles[t].cnt == s.handles[t].cnt
    requires m.handles == s.handles[t := m.handles[t]] && u.handles == m.handles[t := m.handles[t].(phase := Gone)]
    requires var c := s.handles[t].cnt;
             var b := s.blocks[c];
             var d := b.(sc := b.sc - 1, deletes := b.deletes + if b.sc == 1 && s.handles[t].obj.Some? then 1 else 0);
             && m.blocks == s.blocks[c := d]
             && u.blocks == m.blocks[c := d.(wc := d.wc - 1, frees := d.frees + if d.wc == 1 then 1 else 0)]
    ensures IsDropped(s, t, u)
  {
  }

  lemma StillUnpinned(s: State, m: State, t: HandleId)
    requires !Pinned(s, t) && t in s.handles && t in m.handles && m.handles == s.handles[t := m.handles[t]]
    requires m.handles[t].source.None?
    ensures !Pinned(m, t)
  {
  }

  // ---------- operator= ----------

  function FirstHalf(s: State, p: HandleId, q: HandleId, t: HandleId): seq<Action>
    requires p in s.handles
  {
    CopySteps(t, s.handles[p].kind, q) + [Swap(p, t)]
  }

  predicate CanAssign(s: State, p: HandleId, q: HandleId, t: HandleId) {
    && IsIn(s, p, Live) && IsIn(s, q, Live) && s.handles[p].kind == s.handles[q].kind
    && t !in s.handles && !Pinned(s, p)
  }

  // The temporary has been built and swapped with p.
  predicate Swapped(s: State, p: HandleId, q: HandleId, t: HandleId, u: State) {
    && p in s.handles && q in s.handles && s.handles[q].cnt in s.blocks
    && var x, y, kind := s.handles[p], s.handles[q], s.handles[p].kind;
    && u.blocks == s.blocks[y.cnt := Recount(s.blocks[y.cnt], kind, 1)]
    && u.handles == s.handles[p := x.(cnt := y.cnt, obj := y.obj)][t := Handle(kind, Live, x.cnt, x.obj, None, None)]
  }

  lemma SwapOnCopied(s: State, p: HandleId, q: HandleId, t: HandleId)
    requires CanAssign(s, p, q, t) && OnBlock(s, q) && !Pinned(s, t) && s.handles[p].locking.None?
    ensures var m := Copied(s, t, s.handles[p].kind, q);
            Enabled(m, Swap(p, t)) && Swapped(s, p, q, t, Step(m, Swap(p, t)))
  {
    var m := Copied(s, t, s.handles[p].kind, q);
    assert m.handles[t].source.None?;
    assert forall e | e in s.handles :: m.handles[e] == s.handles[e];
    assert !Pinned(m, p) && !Pinned(m, t);
  }

  lemma FirstHalfRuns(s: State, p: HandleId, q: HandleId, t: HandleId)
    requires Inv(s) && CanAssign(s, p, q, t)
    ensures CanRun(s, FirstHalf(s, p, q, t)) && Swapped(s, p, q, t, Run(s, FirstHalf(s, p, q, t)))
  {
    var kind := s.handles[p].kind;
    LiveIsStarted(s, p);
    LiveIsStarted(s, q);
    NobodyPins(s, t);
    CopyRuns(s, t, kind, q);
    SwapOnCopied(s, p, q, t);
    ThenOne(s, CopySteps(t, kind, q), Swap(p, t));
  }

  lemma ThenOne(s: State, acts: seq<Action>, a: Action)
    requires CanRun(s, acts) && Enabled(Run(s, acts), a)
    ensures CanRun(s, acts + [a]) && Run(s, acts + [a]) == Step(Run(s, acts), a)
  {
    Prepend(Run(s, acts), a, Step(Run(s, acts), a), []);
    assert [a] + [] == [a];
    RunConcat(s, acts, [a]);
  }

  lemma FirstHalfHasNoLock(s: State, p: HandleId, q: HandleId, t: HandleId)
    requires p in s.handles
    ensures NoLock(FirstHalf(s, p, q, t))
  {
  }

  lemma FirstHalfKeeps(s: State, p: HandleId, q: HandleId, t: HandleId)
    requires Inv(s) && CanAssign(s, p, q, t) && CanRun(s, FirstHalf(s, p, q, t))
    ensures Inv(Run(s, FirstHalf(s, p, q, t)))
  {
    FirstHalfHasNoLock(s, p, q, t);
    RunKeeps(s, FirstHalf(s, p, q, t));
  }

  lemma SwappedIsDroppable(s: State, p: HandleId, q: HandleId, t: HandleId, u: State)
    requires Inv(u) && Swapped(s, p, q, t, u) && !Pinned(s, t) && t !in s.handles && s.handles[p].source.None?
    ensures Droppable(u, t)
  {
    assert HandleOk(u, t, u.handles[t]);
    CountedBlockIsAlive(u, t);
    if u.handles[t].kind == Strong {
      HeldObjectIsAlive(u, t);
    }
  }

  // The steps of `p = q`: copy q into t, swap p and t, destroy t.
  function AssignSteps(s: State, p: HandleId, q: HandleId, t: HandleId): seq<Action>
    requires p in s.handles && CanRun(s, FirstHalf(s, p, q, t)) && OnBlock(Run(s, FirstHalf(s, p, q, t)), t)
  {
    FirstHalf(s, p, q, t) + DropSteps(Run(s, FirstHalf(s, p, q, t)), t)
  }

  // What an assignment does to the block p stood on.
  predicate OldObjectDies(s: State, p: HandleId, q: HandleId)
    requires p in s.handles && q in s.handles
  {
    && StrongHolders(s, s.handles[p].cnt) == {p} && s.handles[q].cnt != s.handles[p].cnt
    && s.handles[p].obj.Some?
  }

  predicate OldBlockDies(s: State, p: HandleId, q: HandleId)
    requires p in s.handles && q in s.handles
  {
    WeakHolders(s, s.handles[p].cnt) == {p} && s.handles[q].cnt != s.handles[p].cnt && s.handles[p].cnt != 0
  }

  lemma OneElement<T>(a: set<T>, x: T)
    requires x in a
    ensures |a| == 1 <==> a == {x}
  {
    if |a| == 1 {
      assert |a - {x}| == 0;
      assert a == a - {x} + {x};
    }
  }

  // The counts the temporary finds after the swap.
  lemma CountsAtDrop(s: State, p: HandleId, q: HandleId, t: HandleId, u: State)
    requires Inv(s) && CanAssign(s, p, q, t) && Swapped(s, p, q, t, u)
    ensures var c := s.handles[p].cnt;
            && c in s.blocks && c in u.blocks
            && (u.blocks[c].wc == 1 <==> OldBlockDies(s, p, q))
            && (s.handles[p].kind == Strong ==>
                  (u.blocks[c].sc == 1 && s.handles[p].obj.Some? <==> OldObjectDies(s, p, q)))
  {
    var c := s.handles[p].cnt;
    assert HandleOk(s, p, s.handles[p]) && HandleOk(s, q, s.handles[q]);
    assert CountsExact(s, c) && BlockOk(s, c, s.blocks[c]);
    OneElement(WeakHolders(s, c), p);
    if s.handles[p].kind == Strong {
      OneElement(StrongHolders(s, c), p);
    }
  }

  // From every state reached without lock(): the steps of an assignment leave
  // p with the source's block and object, the temporary gone, and every other
  // handle as it was; the object p held is deleted just when p was its only
  // strong holder and the source holds another one, and the block likewise.
  lemma AssignmentMoves(acts: seq<Action>, p: HandleId, q: HandleId, t: HandleId)
    requires CanRun(Initial, acts) && NoLock(acts) && CanAssign(Run(Initial, acts), p, q, t)
    ensures var s := Run(Initial, acts);
            CanRun(s, FirstHalf(s, p, q, t)) && OnBlock(Run(s, FirstHalf(s, p, q, t)), t)
            && CanRun(s, AssignSteps(s, p, q, t))
            && Assigned(s, p, q, t, Run(s, AssignSteps(s, p, q, t)))
  {
    InitialInv();
    RunKeeps(Initial, acts);
    AssignmentRuns(Run(Initial, acts), p, q, t);
  }

  predicate Assigned(s: State, p: HandleId, q: HandleId, t: HandleId, u: State)
    requires p in s.handles && q in s.handles
  {
    && p in u.handles && t in u.handles && q in u.handles
    && Aim(u.handles[p]) == Aim(s.handles[q]) && u.handles[p].phase == Live && u.handles[p].kind == s.handles[p].kind
    && u.handles[t].phase == Gone
    && (forall e | e in s.handles && e != p :: e in u.handles && u.handles[e] == s.handles[e])
    && (forall c | c in s.blocks :: c in u.blocks &&
          var old_, new_ := s.blocks[c], u.blocks[c];
          if c != s.handles[p].cnt then new_.deletes == old_.deletes && new_.frees == old_.frees
          else
            && new_.deletes - old_.deletes == (if s.handles[p].kind == Strong && OldObjectDies(s, p, q) then 1 else 0)
            && new_.frees - old_.frees == if OldBlockDies(s, p, q) then 1 else 0)
  }

  lemma AssignmentRuns(s: State, p: HandleId, q: HandleId, t: HandleId)
    requires Inv(s) && CanAssign(s, p, q, t)
    ensures CanRun(s, FirstHalf(s, p, q, t)) && OnBlock(Run(s, FirstHalf(s, p, q, t)), t)
    ensures CanRun(s, AssignSteps(s, p, q, t)) && Assigned(s, p, q, t, Run(s, AssignSteps(s, p, q, t)))
  {
    FirstHalfRuns(s, p, q, t);
    FirstHalfKeeps(s, p, q, t);
    var u := Run(s, FirstHalf(s, p, q, t));
    NobodyPins(s, t);
    LiveIsStarted(s, p);
    SwappedIsDroppable(s, p, q, t, u);
    var v := DropRuns(u, t);
    RunConcat(s, FirstHalf(s, p, q, t), DropSteps(u, t));
    CountsAtDrop(s, p, q, t, u);
    DroppedIsAssigned(s, p, q, t, u, v);
  }

  lemma DroppedIsAssigned(s: State, p: HandleId, q: HandleId, t: HandleId, u: State, v: State)
    requires CanAssign(s, p, q, t) && Swapped(s, p, q, t, u) && IsDropped(u, t, v)
    requires var c := s.handles[p].cnt;
             && c in s.blocks && c in u.blocks
             && (u.blocks[c].wc == 1 <==> OldBlockDies(s, p, q))
             && (s.handles[p].kind == Strong ==>
                   (u.blocks[c].sc == 1 && s.handles[p].obj.Some? <==> OldObjectDies(s, p, q)))
    ensures Assigned(s, p, q, t, v)
  {
  }

  // ---------- constructors ----------

  // SharedPtr(T*): the new handle points to the object, or is null, on a block
  // of its own, which counts it and nobody else.
  lemma ObjectIsMade(s: State, h: HandleId, c: BlockId, managed: bool) returns (t: State)
    requires h !in s.handles && c !in s.blocks
    ensures CanRun(s, [NewShared(h, c, managed)] + CountIn(h, Strong))
    ensures t == Run(s, [NewShared(h, c, managed)] + CountIn(h, Strong))
    ensures t.handles == s.handles[h := Handle(Strong, Live, c, if managed then Some(c) else None, None, None)]
    ensures t.blocks == s.blocks[c := Block(1, 1, managed, h, true, None, 0, None, 0)]
  {
    var s1 := Step(s, NewShared(h, c, managed));
    t := CountsIn(s1, h);
    Prepend(s, NewShared(h, c, managed), s1, CountIn(h, Strong));
  }

  // SharedPtr() and WeakPtr(): a null handle on the shared block of nulls.
  lemma NullIsMade(s: State, h: HandleId, kind: Kind) returns (t: State)
    requires h !in s.handles && 0 in s.blocks && s.blocks[0].started
    ensures CanRun(s, [NewNull(h, kind)] + CountIn(h, kind)) && t == Run(s, [NewNull(h, kind)] + CountIn(h, kind))
    ensures t.handles == s.handles[h := Handle(kind, Live, 0, None, None, None)]
    ensures t.blocks == s.blocks[0 := Recount(s.blocks[0], kind, 1)]
  {
    var s1 := Step(s, NewNull(h, kind));
    t := CountsIn(s1, h);
    Prepend(s, NewNull(h, kind), s1, CountIn(h, kind));
  }
}
