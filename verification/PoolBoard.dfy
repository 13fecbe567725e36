// What the pool operations do to the lists: who is free, who works for whom,
// who waits.
module PoolBoard {
  import opened Common
  import opened Pool

  ghost predicate Partition<W>(b: Board<W>) {
    && NoDuplicates(b.free) && NoDuplicates(b.working)
    && (forall w | w in b.free :: w !in b.working)
    && (|b.free| + |b.working| == 0 || |b.free| + |b.working| == 2)
    && b.addr.Keys == Members(b.free) + Members(b.working)
    && b.need.Keys == b.addr.Keys
  }

  // No two workers share a request, and none has a waiting one.
  ghost predicate Owners<W>(clears: bool, b: Board<W>) {
    && NoDuplicates(b.waiting)
    && (forall w | w in b.working :: AddrOf(b, w).Some?)
    && (forall w | w in b.addr && b.addr[w].Some? :: b.addr[w].value !in b.waiting)
    && (forall w, v | w in b.addr && v in b.addr && w != v && b.addr[w].Some? :: b.addr[w] != b.addr[v])
    && (clears ==> forall w | w in b.free :: AddrOf(b, w).None?)
  }

  ghost predicate BoardInv<W>(clears: bool, b: Board<W>) {
    Partition(b) && Owners(clears, b)
  }

  lemma PopulatedKeeps<W>(clears: bool, b: Board<W>, w0: W, w1: W)
    requires BoardInv(clears, b) && w0 != w1
    ensures BoardInv(clears, Populated(b, w0, w1))
    ensures forall r :: Works(Populated(b, w0, w1), r) <==> Works(b, r)
    ensures Populated(b, w0, w1).waiting == b.waiting
  {
  }

  lemma StartKeeps<W>(clears: bool, b: Board<W>, r: Request)
    requires BoardInv(clears, b) && r !in b.waiting
    requires forall w | w in b.addr :: b.addr[w] != Some(r)
    ensures BoardInv(clears, b.(waiting := b.waiting + [r]))
  {
  }

  lemma PopLast<T>(s: seq<T>)
    requires NoDuplicates(s) && s != []
    ensures var r := s[..|s| - 1];
            NoDuplicates(r) && s[|s| - 1] !in r && Members(r) == Members(s) - {s[|s| - 1]}
  {
    assert s == s[..|s| - 1] + [s[|s| - 1]];
  }

  lemma PushBack<T>(s: seq<T>, x: T)
    requires NoDuplicates(s) && x !in s
    ensures NoDuplicates(s + [x]) && Members(s + [x]) == Members(s) + {x}
  {
  }

  lemma AssignedPartition<W>(b: Board<W>)
    requires Partition(b)
    ensures Partition(Assigned(b)) && Assigned(b).addr.Keys == b.addr.Keys
  {
    if b.free != [] && b.waiting != [] {
      var w := b.free[|b.free| - 1];
      PopLast(b.free);
      PushBack(b.working, w);
      assert w in b.free;
      assert forall v | v in Assigned(b).free :: v in b.free;
    }
  }

  lemma AssignedWorks<W>(b: Board<W>, r: Request)
    requires Partition(b)
    ensures Works(Assigned(b), r) <==> Works(b, r) || (b.free != [] && b.waiting != [] && r == b.waiting[0])
  {
    if b.free != [] && b.waiting != [] {
      var w, c := b.free[|b.free| - 1], Assigned(b);
      assert w in b.free && w in c.working && AddrOf(c, w) == Some(b.waiting[0]);
      assert forall v | v in b.working :: v in c.working && AddrOf(c, v) == AddrOf(b, v);
      assert forall v | v in c.working && v != w :: v in b.working;
    }
  }

  // The front request is nobody else's and waits no more.
  lemma AddrAssigned<W>(b: Board<W>, w: W)
    requires b.free != [] && b.waiting != [] && w == b.free[|b.free| - 1]
    requires NoDuplicates(b.waiting)
    requires forall v | v in b.addr && b.addr[v].Some? :: b.addr[v].value !in b.waiting
    ensures NoDuplicates(b.waiting[1..]) && b.waiting[0] !in b.waiting[1..]
    ensures Assigned(b).addr == b.addr[w := Some(b.waiting[0])]
    ensures forall v | v in b.addr :: b.addr[v] != Some(b.waiting[0])
    ensures forall v | v in b.addr && b.addr[v].Some? :: b.addr[v].value !in b.waiting[1..]
  {
    assert forall r | r in b.waiting[1..] :: r in b.waiting;
  }

  lemma AssignedOwners<W>(clears: bool, b: Board<W>)
    requires Partition(b) && Owners(clears, b)
    ensures Owners(clears, Assigned(b))
  {
    if b.free != [] && b.waiting != [] {
      var w, c := b.free[|b.free| - 1], Assigned(b);
      PopLast(b.free);
      assert w in b.free;
      assert forall v | v in c.free :: v in b.free && v != w;
      AddrAssigned(b, w);
      assert forall v | v in c.working :: v == w || v in b.working;
    }
  }

  lemma AssignedKeeps<W>(clears: bool, b: Board<W>)
    requires BoardInv(clears, b)
    ensures BoardInv(clears, Assigned(b)) && Assigned(b).addr.Keys == b.addr.Keys
    ensures forall r :: Works(Assigned(b), r) <==>
                        Works(b, r) || (b.free != [] && b.waiting != [] && r == b.waiting[0])
  {
    AssignedPartition(b);
    AssignedOwners(clears, b);
    forall r
      ensures Works(Assigned(b), r) <==> Works(b, r) || (b.free != [] && b.waiting != [] && r == b.waiting[0])
    {
      AssignedWorks(b, r);
    }
  }

  lemma SwapRemoveMembers<T>(s: seq<T>, i: nat)
    requires i < |s| && NoDuplicates(s)
    ensures NoDuplicates(SwapRemove(s, i))
    ensures forall x :: x in SwapRemove(s, i) <==> x in s && x != s[i]
  {
    var t := SwapRemove(s, i);
    forall x | x in s && x != s[i]
      ensures x in t
    {
      var k :| 0 <= k < |s| && s[k] == x;
      assert t[if k == |s| - 1 then i else k] == x;
    }
  }

  lemma FreedPartition<W>(clears: bool, b: Board<W>, i: nat)
    requires Partition(b) && i < |b.working|
    ensures Partition(Freed(clears, b, i))
  {
    var w := b.working[i];
    SwapRemoveMembers(b.working, i);
    assert w in b.working;
    PushBack(b.free, w);
    assert Members(SwapRemove(b.working, i)) == Members(b.working) - {w};
  }

  lemma FreedWorks<W>(clears: bool, b: Board<W>, i: nat, r: Request)
    requires Partition(b) && i < |b.working|
    requires forall w, v | w in b.addr && v in b.addr && w != v && b.addr[w].Some? :: b.addr[w] != b.addr[v]
    ensures Works(Freed(clears, b, i), r) <==> Works(b, r) && AddrOf(b, b.working[i]) != Some(r)
  {
    SwapRemoveMembers(b.working, i);
    var c, w := Freed(clears, b, i), b.working[i];
    assert w in b.working;
    assert forall v | v in c.working :: v in b.working && AddrOf(c, v) == AddrOf(b, v);
    if Works(b, r) && AddrOf(b, w) != Some(r) {
      var v :| v in b.working && AddrOf(b, v) == Some(r);
      assert v in c.working;
    }
  }

  lemma FreedOwners<W>(clears: bool, b: Board<W>, i: nat)
    requires Partition(b) && Owners(clears, b) && i < |b.working|
    ensures Owners(clears, Freed(clears, b, i))
  {
    SwapRemoveMembers(b.working, i);
    var w := b.working[i];
    assert w in b.working && w in Members(b.working);
    assert forall v | v in Freed(clears, b, i).free && v != w :: v in b.free;
  }

  lemma FreedKeeps<W>(clears: bool, b: Board<W>, i: nat)
    requires BoardInv(clears, b) && i < |b.working|
    ensures BoardInv(clears, Freed(clears, b, i))
    ensures forall r :: Works(Freed(clears, b, i), r) <==> Works(b, r) && AddrOf(b, b.working[i]) != Some(r)
  {
    FreedPartition(clears, b, i);
    FreedOwners(clears, b, i);
    forall r
      ensures Works(Freed(clears, b, i), r) <==> Works(b, r) && AddrOf(b, b.working[i]) != Some(r)
    {
      FreedWorks(clears, b, i, r);
    }
  }

  // The loop leaves the board alone when no worker has the request.
  lemma {:induction false} ReturnNothing<W>(clears: bool, b: Board<W>, r: Request, i: nat)
    requires i <= |b.working| && forall k :: i <= k < |b.working| ==> AddrOf(b, b.working[k]) != Some(r)
    ensures ReturnFrom(clears, b, r, i) == b
    decreases |b.working| - i
  {
    if i < |b.working| {
      ReturnNothing(clears, b, r, i + 1);
    }
  }

  // Otherwise it frees the one worker that has it, wherever it stands.
  lemma {:induction false} ReturnOne<W>(clears: bool, b: Board<W>, r: Request, i: nat, k: nat)
    requires BoardInv(clears, b) && i <= k < |b.working| && AddrOf(b, b.working[k]) == Some(r)
    ensures ReturnFrom(clears, b, r, i) == Freed(clears, b, k)
    decreases k - i
  {
    if i < k {
      assert b.working[i] != b.working[k];
      ReturnOne(clears, b, r, i + 1, k);
    } else {
      FreedKeeps(clears, b, k);
      var c := Freed(clears, b, k);
      forall j | k <= j < |c.working|
        ensures AddrOf(c, c.working[j]) != Some(r)
      {
        assert c.working[j] in c.working && !Works(c, r);
      }
      ReturnNothing(clears, c, r, k);
    }
  }

  // c keeps what b knows, except that some workers may have forgotten.
  predicate Forgets<W>(b: Board<W>, c: Board<W>) {
    && c.waiting == b.waiting && c.need == b.need && c.addr.Keys == b.addr.Keys
    && forall w | w in b.addr :: c.addr[w] == b.addr[w] || c.addr[w] == None
  }

  lemma FreedForgets<W>(clears: bool, b: Board<W>, k: nat)
    requires Partition(b) && k < |b.working|
    ensures Forgets(b, Freed(clears, b, k))
  {
    assert b.working[k] in Members(b.working);
  }

  lemma OnlyOwner<W>(clears: bool, b: Board<W>, r: Request, k: nat)
    requires BoardInv(clears, b) && k < |b.working| && AddrOf(b, b.working[k]) == Some(r)
    ensures forall q :: AddrOf(b, b.working[k]) != Some(q) <==> q != r
  {
  }

  // return_worker_with frees exactly the worker that has the request, if any.
  lemma ReturnFrees<W>(clears: bool, b: Board<W>, r: Request)
    requires BoardInv(clears, b)
    ensures Forgets(b, ReturnFrom(clears, b, r, 0))
    ensures BoardInv(clears, ReturnFrom(clears, b, r, 0))
    ensures forall q :: Works(ReturnFrom(clears, b, r, 0), q) <==> Works(b, q) && q != r
    ensures if Works(b, r)
            then exists k | 0 <= k < |b.working| && AddrOf(b, b.working[k]) == Some(r) ::
                   ReturnFrom(clears, b, r, 0) == Freed(clears, b, k)
            else ReturnFrom(clears, b, r, 0) == b
  {
    if Works(b, r) {
      var w :| w in b.working && AddrOf(b, w) == Some(r);
      var k :| 0 <= k < |b.working| && b.working[k] == w;
      ReturnOne(clears, b, r, 0, k);
      FreedKeeps(clears, b, k);
      FreedForgets(clears, b, k);
      OnlyOwner(clears, b, r, k);
    } else {
      assert forall k :: 0 <= k < |b.working| ==> b.working[k] in b.working;
      ReturnNothing(clears, b, r, 0);
    }
  }

  lemma {:induction false} EraseFirstIsWithout<T>(s: seq<T>, x: T)
    requires NoDuplicates(s)
    ensures EraseFirst(s, x) == Without(s, x)
  {
    if s != [] {
      if s[0] == x {
        assert x !in s[1..];
        WithoutAbsent(s[1..], x);
      } else {
        EraseFirstIsWithout(s[1..], x);
      }
    }
  }

  lemma CancelledKeeps<W>(clears: bool, b: Board<W>, r: Request)
    requires BoardInv(clears, b)
    ensures BoardInv(clears, Cancelled(clears, b, r))
    ensures r in b.waiting ==> Cancelled(clears, b, r) == b.(waiting := Without(b.waiting, r))
    ensures forall q :: Works(Cancelled(clears, b, r), q) <==> Works(b, q) && q != r
  {
    if r in b.waiting {
      EraseFirstIsWithout(b.waiting, r);
      WithoutKeepsDistinct(b.waiting, r);
      assert forall q :: Works(Cancelled(clears, b, r), q) <==> Works(b, q);
    } else {
      ReturnFrees(clears, b, r);
    }
  }
}
