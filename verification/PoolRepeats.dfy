// As written, a request can be told its answer more than once.
module PoolRepeats {
  import opened Common
  import opened Pool
  import opened PoolBoard
  import opened PoolHistory
  import opened PoolRouting
  import opened PoolTheorems

  // A delivery is a repeat, or to somebody who cancelled, just when the answer
  // arrives for a free worker.
  lemma AsWrittenRepeatIff(s: State, w: WorkerId, r: Request)
    requires Reachable(false, s) && Enabled(s, Deliver(w)) && Tells(s, Deliver(w)) == Some(r)
    ensures r in s.told || r in s.cancelled <==> w in s.board.free
  {
    AsWrittenStaleIff(s, w);
    ReachableInv(false, s);
    assert r in s.given;
  }

  // ---------- a run ----------

  // The first request was cancelled in flight; the next one, for the same host
  // and service, has got its worker.
  function Rejoined(r1: Request, r2: Request): State {
    var s := Abandoned(r1);
    s.(board := Board([0], [1], [], map[0 := None, 1 := Some(r2)], map[0 := [], 1 := [r1.hs, r2.hs]]),
       alive := {r2}, started := [r1, r2], given := [r1, r2])
  }

  lemma SecondJoins(r1: Request, r2: Request)
    requires r1 != r2
    ensures Enabled(Abandoned(r1), Start(r2)) && Step(false, Abandoned(r1), Start(r2)) == Rejoined(r1, r2)
  {
    var q := Queued(Abandoned(r1), r2);
    var b := q.board;
    assert b.waiting == [r2] && q.started == [r1, r2] && q.alive == {r2} && q.given + [r2] == [r1, r2];
    assert Populated(b, 0, 1) == b;
    assert [0, 1][..1] == [0] && [r2][1..] == [] && b.working + [1] == [1];
    assert NeedOf(b, 1) + [r2.hs] == [r1.hs, r2.hs];
    assert b.addr[1 := Some(r2)] == map[0 := None, 1 := Some(r2)];
    assert b.need[1 := [r1.hs, r2.hs]] == map[0 := [], 1 := [r1.hs, r2.hs]];
  }

  lemma {:induction false} RejoinedRuns(r1: Request, r2: Request)
    requires r1 != r2
    ensures CanRun(false, Initial, [Start(r1), Destroy(r1), Start(r2)])
    ensures Run(false, Initial, [Start(r1), Destroy(r1), Start(r2)]) == Rejoined(r1, r2)
  {
    AbandonedRuns(r1);
    SecondJoins(r1, r2);
    FirstStep(false, Abandoned(r1), Start(r2), Rejoined(r1, r2), []);
    RunConcat(false, Initial, [Start(r1), Destroy(r1)], [Start(r2)] + []);
    assert [Start(r1), Destroy(r1)] + ([Start(r2)] + []) == [Start(r1), Destroy(r1), Start(r2)];
  }

  // A worker with an answer posted tells r and still has the same answer due.
  predicate Doubled(s: State, w: WorkerId, r: Request) {
    && Enabled(s, Deliver(w)) && AddrOf(s.board, w) == Some(r) && Due(s, w) == [r.hs, r.hs]
    && s.board.waiting == [] && |s.board.working| + |s.board.free| != 0
  }

  lemma Tell(s: State, w: WorkerId, r: Request)
    requires Inv(false, s) && Doubled(s, w, r)
    ensures var t := Told(false, s, w, r);
            && Step(false, s, Deliver(w)) == t && Inv(false, t) && Enabled(t, Return)
            && t.main.w == w && Due(t, w) == [r.hs] && AddrOf(t.board, w) == Some(r)
            && t.board.waiting == [] && |t.board.working| + |t.board.free| != 0
  {
    Accepted(s, w, r);
    StepKeeps(false, s, Deliver(w));
    ToldPops(false, s, w, r);
    ToldKeepsAddr(s, w, r);
    var t := Told(false, s, w, r);
    assert Due(s, w) == [r.hs] + Due(t, w);
    assert Due(t, w) == Due(s, w)[1..];
    assert [r.hs, r.hs][1..] == [r.hs];
  }

  lemma Accepted(s: State, w: WorkerId, r: Request)
    requires Enabled(s, Deliver(w)) && AddrOf(s.board, w) == Some(r) && Due(s, w) != [] && Due(s, w)[0] == r.hs
    ensures Accepts(s, w) && Step(false, s, Deliver(w)) == Told(false, s, w, r)
    ensures s.threads[w].resWork == r.hs
  {
    assert Due(s, w)[0] == s.threads[w].resWork;
  }

  lemma ReturnFromTelling(t: State, w: WorkerId)
    requires Enabled(t, Return) && t.main.w == w
    requires t.board.waiting == [] && |t.board.working| + |t.board.free| != 0
    requires Inv(false, t)
    ensures Step(false, t, Return) == ToldAll(t) && Due(ToldAll(t), w) == Due(t, w)
    ensures Inv(false, ToldAll(t))
  {
    StepKeeps(false, t, Return);
    ToldAllDue(t, w);
    NothingToAssign(ToldAll(t));
  }

  lemma TwoSteps(s: State, a: Action, t: State, b: Action, u: State)
    requires Enabled(s, a) && Step(false, s, a) == t && Enabled(t, b) && Step(false, t, b) == u
    ensures CanRun(false, s, [a, b]) && Run(false, s, [a, b]) == u
  {
    FirstStep(false, t, b, u, []);
    FirstStep(false, s, a, t, [b]);
  }

  lemma TellThenReturn(s: State, w: WorkerId, r: Request)
    requires Inv(false, s) && Doubled(s, w, r)
    ensures var t := ToldAll(Told(false, s, w, r));
            && CanRun(false, s, [Deliver(w), Return]) && Run(false, s, [Deliver(w), Return]) == t
            && Inv(false, t) && t.main.Idle? && w in t.threads
            && Due(t, w) == [r.hs] && AddrOf(t.board, w) == Some(r)
            && r in t.told && t.alive == s.alive && t.cancelled == s.cancelled
  {
    var t := Told(false, s, w, r);
    Tell(s, w, r);
    ReturnFromTelling(t, w);
    TwoSteps(s, Deliver(w), t, Return, ToldAll(t));
  }

  lemma ToldKeepsAddr(s: State, w: WorkerId, r: Request)
    requires Inv(false, s) && w in s.threads
    ensures var b := Told(false, s, w, r).board;
            && b.addr == s.board.addr && b.waiting == s.board.waiting
            && |b.working| + |b.free| == |s.board.working| + |s.board.free|
  {
    ReturnFrees(false, s.board, r);
  }

  lemma NothingToAssign(s: State)
    requires s.board.waiting == [] && |s.board.working| + |s.board.free| != 0
    ensures AssignWork(s) == s
  {
    assert s.given + [] == s.given;
  }

  predicate TellsAgain(s: State, w: WorkerId, r: Request) {
    Enabled(s, Deliver(w)) && Tells(s, Deliver(w)) == Some(r) && r in s.told && r in s.alive && r !in s.cancelled
  }

  lemma {:induction false} RejoinedPosts(r1: Request, r2: Request) returns (acts: seq<Action>)
    requires r1 != r2 && r1.hs == r2.hs
    ensures CanRun(false, Rejoined(r1, r2), acts)
    ensures var s := Run(false, Rejoined(r1, r2), acts);
            Inv(false, s) && Doubled(s, 1, r2) && r2 in s.alive && r2 !in s.cancelled
  {
    RejoinedRuns(r1, r2);
    ReachableInv(false, Rejoined(r1, r2));
    assert Due(Rejoined(r1, r2), 1) == [r1.hs, r2.hs];
    acts := WorkerPosts(false, Rejoined(r1, r2), 1);
  }

  lemma {:induction false} DoubledIsToldAgain(s: State, r: Request) returns (acts: seq<Action>)
    requires Inv(false, s) && Doubled(s, 1, r) && r in s.alive && r !in s.cancelled
    ensures CanRun(false, s, acts) && TellsAgain(Run(false, s, acts), 1, r)
  {
    TellThenReturn(s, 1, r);
    var t := ToldAll(Told(false, s, 1, r));
    var second := WorkerPosts(false, t, 1);
    RunConcat(false, s, [Deliver(1), Return], second);
    TellsItAgain(Run(false, t, second), r);
    acts := [Deliver(1), Return] + second;
  }

  // Any two requests for the same host and service can make it happen: the
  // second is alive, was never cancelled, and is told twice.
  lemma {:induction false} LiveRequestToldTwice(r1: Request, r2: Request)
    requires r1 != r2 && r1.hs == r2.hs
    ensures exists acts, w :: CanRun(false, Initial, acts) && TellsAgain(Run(false, Initial, acts), w, r2)
  {
    RejoinedRuns(r1, r2);
    var acts := RejoinedIsToldTwice(r1, r2);
    RunConcat(false, Initial, [Start(r1), Destroy(r1), Start(r2)], acts);
  }

  lemma {:induction false} RejoinedIsToldTwice(r1: Request, r2: Request) returns (acts: seq<Action>)
    requires r1 != r2 && r1.hs == r2.hs
    ensures CanRun(false, Rejoined(r1, r2), acts) && TellsAgain(Run(false, Rejoined(r1, r2), acts), 1, r2)
  {
    var first := RejoinedPosts(r1, r2);
    var again := DoubledIsToldAgain(Run(false, Rejoined(r1, r2), first), r2);
    RunConcat(false, Rejoined(r1, r2), first, again);
    acts := first + again;
  }

  lemma TellsItAgain(s: State, r: Request)
    requires Enabled(s, Deliver(1)) && Due(s, 1) == [r.hs] && AddrOf(s.board, 1) == Some(r)
    requires r in s.told && r in s.alive && r !in s.cancelled
    ensures TellsAgain(s, 1, r)
  {
    assert Due(s, 1)[0] == s.threads[1].resWork;
  }
}
