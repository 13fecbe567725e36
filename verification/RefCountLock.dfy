// WeakPtr::lock builds its result with a constructor that counts the new
// handle in forNulls instead of in the block it goes on to use.  What the
// counters are worth in runs with lock(), exactly.
module RefCountLock {
  import opened RefCount
  import opened RefCountProof

  // lock() on a pointer that is not null has built a handle.
  predicate Misplaces(s: State, a: Action) {
    a.LockAdopt? && a.w in s.handles && s.handles[a.w].cnt != 0
  }

  function Misplaced(s: State, acts: seq<Action>): nat
    requires CanRun(s, acts)
    decreases acts
  {
    if acts == [] then 0
    else (if Misplaces(s, acts[0]) then 1 else 0) + Misplaced(Step(s, acts[0]), acts[1..])
  }

  predicate Ledger(s: State, n: nat) {
    0 in s.blocks && s.blocks[0].wc == 1 + |WeakHolders(s, 0)| + n
  }

  lemma SwapLedger(s: State, h: HandleId, g: HandleId, n: nat)
    requires Ledger(s, n) && Enabled(s, Swap(h, g))
    ensures Ledger(Step(s, Swap(h, g)), n)
  {
    if h == g {
      assert Step(s, Swap(h, g)).handles == s.handles;
    } else {
      SwapHolders(s, h, g, 0);
    }
  }

  lemma OneHandleLedger(s: State, t: State, h: HandleId, n: nat, k: nat)
    requires Ledger(s, n) && h in t.handles && 0 in t.blocks
    requires t.handles == s.handles[h := t.handles[h]]
    requires t.blocks[0].wc - s.blocks[0].wc == One(InWc(t.handles[h], 0)) - One(WasInWc(s, h, 0)) + k
    ensures Ledger(t, n + k)
  {
    HoldersAfter(s, h, t.handles[h], 0);
    assert WeakHolders(t, 0) == WeakHolders(PutHandle(s, h, t.handles[h]), 0);
  }

  // A step of one handle: forNulls.wc moves just as its holders do, except
  // when a handle is misplaced.
  lemma HandleLedger(s: State, a: Action, n: nat)
    requires Ledger(s, n) && Enabled(s, a) && !a.Swap? && !a.LockAdopt?
    ensures Ledger(Step(s, a), n)
  {
    OneHandleLedger(s, Step(s, a), a.h, n, 0);
  }

  lemma AdoptLedger(s: State, a: Action, n: nat)
    requires Ledger(s, n) && Enabled(s, a) && a.LockAdopt?
    ensures Ledger(Step(s, a), n + if Misplaces(s, a) then 1 else 0)
  {
    OneHandleLedger(s, Step(s, a), a.h, n, if Misplaces(s, a) then 1 else 0);
  }

  lemma {:induction false} RunLedger(s: State, acts: seq<Action>, n: nat)
    requires Ledger(s, n) && CanRun(s, acts)
    ensures Ledger(Run(s, acts), n + Misplaced(s, acts))
    decreases acts
  {
    if acts != [] {
      if acts[0].Swap? {
        SwapLedger(s, acts[0].h, acts[0].g, n);
      } else if acts[0].LockAdopt? {
        AdoptLedger(s, acts[0], n);
      } else {
        HandleLedger(s, acts[0], n);
      }
      RunLedger(Step(s, acts[0]), acts[1..], n + if Misplaces(s, acts[0]) then 1 else 0);
    }
  }

  // forNulls.wc equals its holders plus the bias just when no lock() on a
  // pointer that is not null has built a handle.
  lemma NullCountExactIff(acts: seq<Action>)
    requires CanRun(Initial, acts)
    ensures var s := Run(Initial, acts);
            0 in s.blocks && (s.blocks[0].wc == Bias(0) + |WeakHolders(s, 0)| <==> Misplaced(Initial, acts) == 0)
  {
    assert WeakHolders(Initial, 0) == {};
    RunLedger(Initial, acts, 0);
  }

  // ---------- the block a lock() goes on to use ----------

  predicate Adopts(s: State, a: Action, c: BlockId) {
    a.LockAdopt? && a.w in s.handles && s.handles[a.w].cnt == c
  }

  function Adopted(s: State, acts: seq<Action>, c: BlockId): nat
    requires CanRun(s, acts)
    decreases acts
  {
    if acts == [] then 0
    else One(Adopts(s, acts[0], c)) + Adopted(Step(s, acts[0]), acts[1..], c)
  }

  // A block has one uncounted holder for every handle built by lock() on it;
  // no handle knows a block that does not exist yet.
  ghost predicate Account(s: State, c: BlockId, n: nat) {
    && (forall h | h in s.handles :: s.handles[h].cnt in s.blocks) && 0 in s.blocks
    && (c in s.blocks ==> s.blocks[c].wc == |WeakHolders(s, c)| - n)
    && (c !in s.blocks ==> n == 0)
  }

  lemma SwapAccount(s: State, h: HandleId, g: HandleId, c: BlockId, n: nat)
    requires Account(s, c, n) && Enabled(s, Swap(h, g))
    ensures Account(Step(s, Swap(h, g)), c, n)
  {
    if h == g {
      assert Step(s, Swap(h, g)).handles == s.handles;
    } else {
      SwapHolders(s, h, g, c);
    }
  }

  // A step that rewrites one handle.
  lemma OneHandleAccount(s: State, t: State, h: HandleId, c: BlockId, n: nat, k: nat)
    requires Account(s, c, n) && h in t.handles && c in s.blocks && s.blocks.Keys <= t.blocks.Keys
    requires t.handles == s.handles[h := t.handles[h]] && t.handles[h].cnt in t.blocks
    requires t.blocks[c].wc - s.blocks[c].wc == One(InWc(t.handles[h], c)) - One(WasInWc(s, h, c)) - k
    ensures Account(t, c, n + k)
  {
    HoldersAfter(s, h, t.handles[h], c);
    assert WeakHolders(t, c) == WeakHolders(PutHandle(s, h, t.handles[h]), c);
  }

  // The block may be born in this very step.
  lemma NewAccount(s: State, a: Action, c: BlockId, n: nat)
    requires Account(s, c, n) && Enabled(s, a) && c !in s.blocks && !a.Swap?
    ensures Account(Step(s, a), c, n)
  {
    var t := Step(s, a);
    if c in t.blocks {
      assert a.NewShared? && a.c == c;
      assert WeakHolders(t, c) == {};
    }
  }

  lemma HandleAccount(s: State, a: Action, c: BlockId, n: nat)
    requires Account(s, c, n) && Enabled(s, a) && c in s.blocks && c != 0 && !a.Swap? && !a.LockAdopt?
    ensures Account(Step(s, a), c, n)
  {
    OneHandleAccount(s, Step(s, a), a.h, c, n, 0);
  }

  lemma AdoptAccount(s: State, a: Action, c: BlockId, n: nat)
    requires Account(s, c, n) && Enabled(s, a) && c in s.blocks && c != 0 && a.LockAdopt?
    ensures Account(Step(s, a), c, n + One(Adopts(s, a, c)))
  {
    OneHandleAccount(s, Step(s, a), a.h, c, n, One(Adopts(s, a, c)));
  }

  lemma StepAccount(s: State, a: Action, c: BlockId, n: nat)
    requires Account(s, c, n) && Enabled(s, a) && c != 0
    ensures Account(Step(s, a), c, n + One(Adopts(s, a, c)))
  {
    if a.Swap? {
      SwapAccount(s, a.h, a.g, c, n);
    } else if c !in s.blocks {
      NewAccount(s, a, c, n);
    } else if a.LockAdopt? {
      AdoptAccount(s, a, c, n);
    } else {
      HandleAccount(s, a, c, n);
    }
  }

  lemma {:induction false} RunAccount(s: State, acts: seq<Action>, c: BlockId, n: nat)
    requires Account(s, c, n) && CanRun(s, acts) && c != 0
    ensures Account(Run(s, acts), c, n + Adopted(s, acts, c))
    decreases acts
  {
    if acts != [] {
      StepAccount(s, acts[0], c, n);
      RunAccount(Step(s, acts[0]), acts[1..], c, n + One(Adopts(s, acts[0], c)));
    }
  }

  // In every run, a block other than forNulls counts its holders exactly just
  // when no lock() has built a handle on it; each one that has makes the count
  // one too small, for good.
  lemma BlockCountExactIff(acts: seq<Action>, c: BlockId)
    requires CanRun(Initial, acts) && c in Run(Initial, acts).blocks && c != 0
    ensures var s := Run(Initial, acts);
            && s.blocks[c].wc == |WeakHolders(s, c)| - Adopted(Initial, acts, c)
            && (s.blocks[c].wc == |WeakHolders(s, c)| <==> Adopted(Initial, acts, c) == 0)
  {
    RunAccount(Initial, acts, c, 0);
  }

  // ---------- the strong count with lock() ----------

  predicate InLock(x: Handle, c: BlockId) {
    x.cnt == c && x.locking.Some?
  }

  predicate WasInLock(s: State, h: HandleId, c: BlockId) {
    h in s.handles && InLock(s.handles[h], c)
  }

  // The weak pointers inside lock() on block c.
  function Lockers(s: State, c: BlockId): set<HandleId> {
    set h | h in s.handles && InLock(s.handles[h], c)
  }

  ghost predicate ScAccount(s: State, c: BlockId) {
    && (forall h | h in s.handles :: s.handles[h].cnt in s.blocks) && 0 in s.blocks
    && (forall h | h in s.handles && s.handles[h].phase.Counted? :: s.handles[h].kind.Strong?)
    && (c in s.blocks ==> s.blocks[c].sc == Bias(c) + |StrongHolders(s, c)| + |Lockers(s, c)|)
  }

  lemma LockersAfter(s: State, h: HandleId, x: Handle, c: BlockId)
    ensures Lockers(PutHandle(s, h, x), c) == if InLock(x, c) then Lockers(s, c) + {h} else Lockers(s, c) - {h}
  {
  }

  lemma SwapScAccount(s: State, h: HandleId, g: HandleId, c: BlockId)
    requires ScAccount(s, c) && Enabled(s, Swap(h, g))
    ensures ScAccount(Step(s, Swap(h, g)), c)
  {
    var t := Step(s, Swap(h, g));
    if h == g {
      assert t.handles == s.handles;
    } else {
      SwapHolders(s, h, g, c);
      assert Lockers(t, c) == Lockers(s, c);
    }
  }

  lemma OneHandleScAccount(s: State, t: State, h: HandleId, c: BlockId)
    requires ScAccount(s, c) && h in t.handles && c in s.blocks && s.blocks.Keys <= t.blocks.Keys
    requires t.handles == s.handles[h := t.handles[h]] && t.handles[h].cnt in t.blocks
    requires t.handles[h].phase.Counted? ==> t.handles[h].kind.Strong?
    requires t.blocks[c].sc - s.blocks[c].sc
             == One(InSc(t.handles[h], c)) - One(WasInSc(s, h, c)) + One(InLock(t.handles[h], c)) - One(WasInLock(s, h, c))
    ensures ScAccount(t, c)
  {
    HoldersAfter(s, h, t.handles[h], c);
    LockersAfter(s, h, t.handles[h], c);
    var u := PutHandle(s, h, t.handles[h]);
    assert StrongHolders(t, c) == StrongHolders(u, c) && Lockers(t, c) == Lockers(u, c);
  }

  lemma NewScAccount(s: State, a: Action, c: BlockId)
    requires ScAccount(s, c) && Enabled(s, a) && c !in s.blocks && !a.Swap?
    ensures ScAccount(Step(s, a), c)
  {
    var t := Step(s, a);
    if c in t.blocks {
      assert a.NewShared? && a.c == c;
      assert StrongHolders(t, c) == {} && Lockers(t, c) == {};
    }
  }

  lemma StepScAccount(s: State, a: Action, c: BlockId)
    requires ScAccount(s, c) && Enabled(s, a)
    ensures ScAccount(Step(s, a), c)
  {
    if a.Swap? {
      SwapScAccount(s, a.h, a.g, c);
    } else if c !in s.blocks {
      NewScAccount(s, a, c);
    } else {
      OneHandleScAccount(s, Step(s, a), a.h, c);
    }
  }

  lemma {:induction false} RunScAccount(s: State, acts: seq<Action>, c: BlockId)
    requires ScAccount(s, c) && CanRun(s, acts)
    ensures ScAccount(Run(s, acts), c)
    decreases acts
  {
    if acts != [] {
      StepScAccount(s, acts[0], c);
      RunScAccount(Step(s, acts[0]), acts[1..], c);
    }
  }

  // In every run, lock() included, sc counts the strong handles and the
  // lock()s under way.
  lemma StrongCountWithLocks(acts: seq<Action>, c: BlockId)
    requires CanRun(Initial, acts) && c in Run(Initial, acts).blocks
    ensures var s := Run(Initial, acts); s.blocks[c].sc == Bias(c) + |StrongHolders(s, c)| + |Lockers(s, c)|
  {
    assert StrongHolders(Initial, 0) == {} && Lockers(Initial, 0) == {};
    RunScAccount(Initial, acts, c);
  }

  // lock() on an object without owners goes on to build a handle just when
  // another lock() on it is under way.
  lemma LockOfOwnerlessIff(acts: seq<Action>, h: HandleId, g: HandleId)
    requires CanRun(Initial, acts) && Enabled(Run(Initial, acts), LockBegin(h)) && g !in Run(Initial, acts).handles
    requires var s := Run(Initial, acts); var c := s.handles[h].cnt; c != 0 && StrongHolders(s, c) == {}
    ensures var s := Run(Initial, acts);
            Enabled(Step(s, LockBegin(h)), LockAdopt(g, h)) <==> Lockers(s, s.handles[h].cnt) != {}
  {
    var s := Run(Initial, acts);
    StrongCountWithLocks(acts, s.handles[h].cnt);
    assert StrongHolders(Initial, 0) == {} && Lockers(Initial, 0) == {};
    RunScAccount(Initial, acts, 0);
  }
}
