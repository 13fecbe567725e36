// AsyncAddrInfo::Impl and its workers as the objects they are.
module ResolverImpl {
  import opened Common
  import opened Pool
  import opened PoolBoard

  class Worker {
    const clears: bool
    var addr: Option<Request>
    var needWork: seq<HostService>

    constructor (clears: bool)
      ensures this.clears == clears && addr == None && needWork == []
    {
      this.clears := clears;
      addr, needWork := None, [];
    }

    method StartWork(r: Request)
      modifies this
      ensures addr == Some(r) && needWork == old(needWork) + [r.hs]
    {
      addr := Some(r);
      needWork := needWork + [r.hs];
    }

    // In the code the parameter hides the field, so nothing is cleared.
    method CancelWork(r: Request) returns (mine: bool)
      modifies this`addr
      ensures mine <==> old(addr) == Some(r)
      ensures addr == if mine && clears then None else old(addr)
    {
      if addr != Some(r) {
        return false;
      }
      if clears {
        addr := None;
      }
      return true;
    }
  }

  method Find(s: seq<Request>, r: Request) returns (i: nat)
    ensures i <= |s| && r !in s[..i] && (i < |s| ==> s[i] == r)
  {
    i := 0;
    while i < |s| && s[i] != r
      invariant i <= |s| && r !in s[..i]
    {
      i := i + 1;
    }
  }

  lemma {:induction false} EraseFirstAt(s: seq<Request>, r: Request, i: nat)
    requires i < |s| && s[i] == r && r !in s[..i]
    ensures EraseFirst(s, r) == s[..i] + s[i + 1..]
  {
    if i > 0 {
      assert s[..i][0] == s[0] && s[1..][..i - 1] == s[..i][1..];
      EraseFirstAt(s[1..], r, i - 1);
    }
  }

  ghost function Addrs(ws: set<Worker>): map<Worker, Option<Request>>
    reads ws
  {
    map w: Worker | w in ws :: w.addr
  }

  ghost function Needs(ws: set<Worker>): map<Worker, seq<HostService>>
    reads ws
  {
    map w: Worker | w in ws :: w.needWork
  }

  // One worker has changed since the maps were taken.
  lemma OneChanged(ws: set<Worker>, addr: map<Worker, Option<Request>>, need: map<Worker, seq<HostService>>, w: Worker)
    requires w in ws && addr.Keys == ws && need.Keys == ws
    requires forall v | v in ws && v != w :: v.addr == addr[v] && v.needWork == need[v]
    ensures Addrs(ws) == addr[w := w.addr] && Needs(ws) == need[w := w.needWork]
  {
  }

  lemma Emptiness<W>(clears: bool, b: Board<W>)
    requires BoardInv(clears, b)
    ensures b.addr.Keys == {} <==> |b.free| + |b.working| == 0
    ensures b.free != [] ==> b.free[|b.free| - 1] in b.addr.Keys
  {
    assert b.free != [] ==> b.free[|b.free| - 1] in Members(b.free);
    assert b.working != [] ==> b.working[0] in Members(b.working);
  }

  lemma WorkersAreKnown<W>(clears: bool, b: Board<W>)
    requires BoardInv(clears, b)
    ensures forall w | w in b.working :: w in b.addr.Keys
  {
    assert forall w | w in b.working :: w in Members(b.working);
  }

  lemma Unchanged<K, V>(m: map<K, V>, k: K)
    requires k in m
    ensures m[k := m[k]] == m
  {
  }

  lemma ReturnStep<W>(clears: bool, b: Board<W>, r: Request, i: nat)
    requires i < |b.working|
    ensures ReturnFrom(clears, b, r, i)
            == if AddrOf(b, b.working[i]) == Some(r) then ReturnFrom(clears, Freed(clears, b, i), r, i)
               else ReturnFrom(clears, b, r, i + 1)
  {
  }

  class Impl {
    const clears: bool
    var free: seq<Worker>
    var working: seq<Worker>
    var waiting: seq<Request>
    ghost var pool: set<Worker>      // free and working together
    ghost var lists: Board<Worker>   // all of this, as a value

    // The value is up to date.
    ghost predicate Shown()
      reads this, pool
    {
      lists == Board(free, working, waiting, Addrs(pool), Needs(pool)) && forall w | w in pool :: w.clears == clears
    }

    ghost predicate Valid()
      reads this, pool
    {
      Shown() && BoardInv(clears, lists)
    }

    constructor (clears: bool)
      ensures Valid() && this.clears == clears && lists == Board([], [], [], map[], map[])
    {
      this.clears := clears;
      free, working, waiting, pool, lists := [], [], [], {}, Board([], [], [], map[], map[]);
    }

    // assign_work, first half: the workers are built when they are first needed.
    method Populate()
      requires Shown() && free == [] && working == [] && pool == {}
      modifies this`free, this`pool, this`lists
      ensures Shown() && fresh(pool) && |free| == 2 && free[0] != free[1]
      ensures lists == Populated(old(lists), free[0], free[1])
    {
      var first := new Worker(clears);
      var second := new Worker(clears);
      free := [first, second];
      pool := {first, second};
      lists := Populated(lists, first, second);
      assert Addrs(pool) == map[first := None, second := None];
      assert Needs(pool) == map[first := [], second := []];
    }

    // The second half: the last free worker gets the first waiting request.
    method TakeFront()
      requires Shown() && free != [] && waiting != [] && free[|free| - 1] in pool
      modifies this`free, this`working, this`waiting, this`lists, pool
      ensures Shown() && lists == Assigned(old(lists))
    {
      var w, r := free[|free| - 1], waiting[0];
      w.StartWork(r);
      OneChanged(pool, lists.addr, lists.need, w);
      working := working + [w];
      free := free[..|free| - 1];
      waiting := waiting[1..];
      lists := Assigned(lists);
    }

    method AssignIfPossible()
      requires Valid()
      modifies this`free, this`working, this`waiting, this`lists, pool
      ensures Valid() && lists == Assigned(old(lists))
    {
      AssignedKeeps(clears, lists);
      Emptiness(clears, lists);
      if |free| != 0 && |waiting| != 0 {
        TakeFront();
      }
    }

    method EnsureWorkers()
      requires Valid()
      modifies this`free, this`pool, this`lists
      ensures Valid() && fresh(pool - old(pool)) && old(pool) <= pool
      ensures old(pool) != {} ==> lists == old(lists)
      ensures old(pool) == {} ==> |free| == 2 && working == [] && lists == Populated(old(lists), free[0], free[1])
    {
      Emptiness(clears, lists);
      if |working| + |free| == 0 {
        Populate();
        PopulatedKeeps(clears, old(lists), free[0], free[1]);
      }
    }

    method AssignWork()
      requires Valid()
      modifies this`free, this`working, this`waiting, this`pool, this`lists, pool
      ensures Valid() && fresh(pool - old(pool)) && old(pool) <= pool
      ensures old(pool) != {} ==> lists == Assigned(old(lists))
      ensures old(pool) == {} ==>
                var ws := free + working;
                |ws| == 2 && lists == Assigned(Populated(old(lists), ws[0], ws[1]))
    {
      EnsureWorkers();
      AssignIfPossible();
    }

    method ReturnWorkerWith(r: Request)
      requires Valid()
      modifies this`free, this`working, this`lists, pool
      ensures Valid() && lists == ReturnFrom(clears, old(lists), r, 0)
    {
      WorkersAreKnown(clears, lists);
      ReturnFrees(clears, lists, r);
      ReturnFromFirst(r);
    }

    // The loop of return_worker_with.
    method ReturnFromFirst(r: Request)
      requires Shown() && forall w | w in working :: w in pool
      modifies this`free, this`working, this`lists, pool
      ensures Shown() && lists == ReturnFrom(clears, old(lists), r, 0)
    {
      var i := 0;
      while i < |working|
        invariant i <= |working| && Shown() && forall w | w in working :: w in pool
        invariant ReturnFrom(clears, lists, r, i) == ReturnFrom(clears, old(lists), r, 0)
        decreases |working| - i
      {
        ReturnStep(clears, lists, r, i);
        var mine := CancelAt(i, r);
        if !mine {
          i := i + 1;
        }
      }
    }

    // One pass of it.
    method CancelAt(i: nat, r: Request) returns (mine: bool)
      requires Shown() && i < |working| && working[i] in pool
      modifies this`free, this`working, this`lists, pool
      ensures mine <==> AddrOf(old(lists), old(working)[i]) == Some(r)
      ensures Shown() && lists == if mine then Freed(clears, old(lists), i) else old(lists)
      ensures forall w | w in working :: w in old(working)
    {
      var w := working[i];
      mine := w.CancelWork(r);
      OneChanged(pool, lists.addr, lists.need, w);
      Unchanged(lists.need, w);
      Unchanged(lists.addr, w);
      if mine {
        MoveToFree(i);
      }
    }

    // The worker at index i has forgotten its request already, if it clears.
    method MoveToFree(i: nat)
      requires i < |working| && working[i] in pool && forall w | w in pool :: w.clears == clears
      requires lists == Board(free, working, waiting, lists.addr, lists.need)
      requires Freed(clears, lists, i).addr == Addrs(pool) && lists.need == Needs(pool)
      modifies this`free, this`working, this`lists
      ensures Shown() && lists == Freed(clears, old(lists), i)
      ensures forall w | w in working :: w in old(working)
    {
      free := free + [working[i]];
      working := working[i := working[|working| - 1]];
      working := working[..|working| - 1];
      lists := Freed(clears, lists, i);
    }

    method Enqueue(r: Request)
      requires Shown()
      modifies this`waiting, this`lists
      ensures Shown() && lists == old(lists).(waiting := old(waiting) + [r])
    {
      waiting := waiting + [r];
      lists := lists.(waiting := waiting);
    }

    method StartResolve(r: Request)
      requires Valid() && r !in waiting && forall w | w in pool :: w.addr != Some(r)
      modifies this`free, this`working, this`waiting, this`pool, this`lists, pool
      ensures Valid() && fresh(pool - old(pool)) && old(pool) <= pool
      ensures var queued := old(lists).(waiting := old(waiting) + [r]);
              if old(pool) != {} then lists == Assigned(queued)
              else |free + working| == 2 &&
                   lists == Assigned(Populated(queued, (free + working)[0], (free + working)[1]))
    {
      StartKeeps(clears, lists, r);
      Enqueue(r);
      AssignWork();
    }

    method EraseAt(it: nat, r: Request)
      requires Shown() && it < |waiting| && waiting[it] == r && r !in waiting[..it]
      modifies this`waiting, this`lists
      ensures Shown() && lists == old(lists).(waiting := EraseFirst(old(waiting), r))
    {
      EraseFirstAt(waiting, r, it);
      waiting := waiting[..it] + waiting[it + 1..];
      lists := lists.(waiting := waiting);
    }

    method CancelResolve(r: Request)
      requires Valid()
      modifies this`free, this`working, this`waiting, this`lists, pool
      ensures Valid() && lists == Cancelled(clears, old(lists), r)
    {
      CancelledKeeps(clears, lists, r);
      var it := Find(waiting, r);
      if it < |waiting| {
        EraseAt(it, r);
      } else {
        ReturnWorkerWith(r);
      }
    }
  }
}
