// AsyncAddrInfo's resolver pool: two worker threads that look up hosts, a
// queue of requests, cancellation at any time, and a delegate that may start
// and cancel requests from inside its callback.
module Pool {
  import opened Common

  datatype HostService = HostService(host: string, service: string)

  // An AsyncAddrInfo object; `id` is its identity, never reused.
  datatype Request = Request(id: nat, hs: HostService)

  // ---------- what the main thread owns ----------

  // The lists of AsyncAddrInfo::Impl with two fields of its workers: the
  // request being worked on and the deque of work for the thread.
  datatype Board<!W(==)> = Board(
    free: seq<W>,
    working: seq<W>,
    waiting: seq<Request>,
    addr: map<W, Option<Request>>,
    need: map<W, seq<HostService>>)

  function AddrOf<W>(b: Board<W>, w: W): Option<Request> {
    if w in b.addr then b.addr[w] else None
  }

  function NeedOf<W>(b: Board<W>, w: W): seq<HostService> {
    if w in b.need then b.need[w] else []
  }

  function SwapRemove<T>(s: seq<T>, i: nat): (r: seq<T>)
    requires i < |s|
    ensures |r| == |s| - 1
  {
    s[i := s[|s| - 1]][..|s| - 1]
  }

  // std::find and erase.
  function EraseFirst<T(==)>(s: seq<T>, x: T): seq<T> {
    if s == [] then []
    else if s[0] == x then s[1..]
    else [s[0]] + EraseFirst(s[1..], x)
  }

  // The two workers are built when the first request comes.
  function Populated<W>(b: Board<W>, w0: W, w1: W): Board<W> {
    if |b.working| + |b.free| == 0 then
      Board([w0, w1], [], b.waiting, map[w0 := None, w1 := None], map[w0 := [], w1 := []])
    else b
  }

  function Assigned<W>(b: Board<W>): Board<W> {
    if b.free == [] || b.waiting == [] then b
    else
      var w, r := b.free[|b.free| - 1], b.waiting[0];
      Board(b.free[..|b.free| - 1], b.working + [w], b.waiting[1..],
            b.addr[w := Some(r)], b.need[w := NeedOf(b, w) + [r.hs]])
  }

  // What cancel_work does to the worker it matches: `clears` is the intent of
  // the comment in onCall; in the code the parameter hides the field, and the
  // field keeps its value.
  function Freed<W>(clears: bool, b: Board<W>, i: nat): Board<W>
    requires i < |b.working|
  {
    var w := b.working[i];
    b.(free := b.free + [w], working := SwapRemove(b.working, i), addr := if clears then b.addr[w := None] else b.addr)
  }

  // return_worker_with, from index i on.
  function ReturnFrom<W>(clears: bool, b: Board<W>, r: Request, i: nat): Board<W>
    requires i <= |b.working|
    decreases |b.working| - i
  {
    if i == |b.working| then b
    else if AddrOf(b, b.working[i]) == Some(r) then ReturnFrom(clears, Freed(clears, b, i), r, i)
    else ReturnFrom(clears, b, r, i + 1)
  }

  function Cancelled<W>(clears: bool, b: Board<W>, r: Request): Board<W> {
    if r in b.waiting then b.(waiting := EraseFirst(b.waiting, r)) else ReturnFrom(clears, b, r, 0)
  }

  ghost predicate Works<W>(b: Board<W>, r: Request) {
    exists w | w in b.working :: AddrOf(b, w) == Some(r)
  }

  // ---------- the worker threads ----------

  // An answer of getaddrinfo; when nothing was found the pointer is null.
  datatype Answer = Answer(id: nat, found: bool)

  datatype Pc =
    | Sleeping                             // waits for need_work
    | Looking(hs: HostService)             // inside getaddrinfo
    | Found(hs: HostService, info: Answer) // constructing the ActiveCall
    | Owning(hs: HostService, info: Answer)
    | Dropped(hs: HostService, info: Answer) // has freed the old answer

  // `full` is the flag of thm.msg, true from call() until onCall has returned.
  datatype Thread = Thread(pc: Pc, res: Option<Answer>, resWork: HostService, full: bool)

  const NewThread := Thread(Sleeping, None, HostService("", ""), false)

  type WorkerId = nat

  // What the loop thread is doing: other client code, or the delegate's
  // on_resolved for an answer of worker w.
  datatype Main = Idle | Telling(w: WorkerId, who: Request, info: Option<Answer>)

  datatype Asked = Asked(w: WorkerId, hs: HostService)

  datatype State = State(
    board: Board<WorkerId>,
    threads: map<WorkerId, Thread>,
    main: Main,
    alive: set<Request>,
    asked: seq<Asked>,           // history: every lookup; its index is the answer's id
    freed: set<nat>,             // history: the answers passed to freeaddrinfo
    started: seq<Request>,       // history
    given: seq<Request>,         // history: handed to a worker
    told: seq<Request>,          // history: calls of on_resolved
    dropped: set<Request>,       // history: cancelled while waiting
    cancelled: set<Request>)     // history: cancelled while a worker had it

  const Initial := State(Board([], [], [], map[], map[]), map[], Idle, {}, [], {}, [], [], [], {}, {})

  datatype Action =
    | Start(r: Request)                 // constructor of AsyncAddrInfo
    | Destroy(r: Request)               // its destructor
    | TakeWork(w: WorkerId)
    | Lookup(w: WorkerId, found: bool)  // getaddrinfo returns
    | Acquire(w: WorkerId)              // ActiveCall: the flag is false
    | FreeOld(w: WorkerId)
    | Publish(w: WorkerId)              // res, res_work and call()
    | Deliver(w: WorkerId)              // onCall
    | Return                            // the delegate's on_resolved returns

  predicate Enabled(s: State, a: Action) {
    match a
    case Start(r) => r !in s.started
    case Destroy(r) => r in s.alive
    case TakeWork(w) => w in s.threads && s.threads[w].pc.Sleeping? && NeedOf(s.board, w) != []
    case Lookup(w, _) => w in s.threads && s.threads[w].pc.Looking?
    case Acquire(w) => w in s.threads && s.threads[w].pc.Found? && !s.threads[w].full
    case FreeOld(w) => w in s.threads && s.threads[w].pc.Owning?
    case Publish(w) => w in s.threads && s.threads[w].pc.Dropped?
    case Deliver(w) => w in s.threads && s.threads[w].full && s.main.Idle?
    case Return => s.main.Telling? && s.main.w in s.threads
  }

  function AssignWork(s: State): State {
    var b := Populated(s.board, 0, 1);
    s.(board := Assigned(b),
       threads := if |s.board.working| + |s.board.free| == 0 then map[0 := NewThread, 1 := NewThread] else s.threads,
       given := s.given + if b.free == [] || b.waiting == [] then [] else [b.waiting[0]])
  }

  function PutThread(s: State, w: WorkerId, t: Thread): State {
    s.(threads := s.threads[w := t])
  }

  // onCall passes the answer on when the worker has a request and the answer
  // is for its host and service.
  predicate Accepts(s: State, w: WorkerId) {
    w in s.threads && AddrOf(s.board, w).Some? && AddrOf(s.board, w).value.hs == s.threads[w].resWork
  }

  ghost function Step(clears: bool, s: State, a: Action): State
    requires Enabled(s, a)
  {
    match a
    case Start(r) =>
      AssignWork(s.(board := s.board.(waiting := s.board.waiting + [r]),
                    alive := s.alive + {r}, started := s.started + [r]))
    case Destroy(r) =>
      s.(board := Cancelled(clears, s.board, r), alive := s.alive - {r},
         dropped := if r in s.board.waiting then s.dropped + {r} else s.dropped,
         cancelled := if r !in s.board.waiting && Works(s.board, r) then s.cancelled + {r} else s.cancelled)
    case TakeWork(w) =>
      var need := NeedOf(s.board, w);
      PutThread(s, w, s.threads[w].(pc := Looking(need[0])))
      .(board := s.board.(need := s.board.need[w := need[1..]]))
    case Lookup(w, found) =>
      var hs := s.threads[w].pc.hs;
      PutThread(s, w, s.threads[w].(pc := Found(hs, Answer(|s.asked|, found)))).(asked := s.asked + [Asked(w, hs)])
    case Acquire(w) =>
      var t := s.threads[w];
      PutThread(s, w, t.(pc := Owning(t.pc.hs, t.pc.info)))
    case FreeOld(w) =>
      var t := s.threads[w];
      PutThread(s, w, t.(pc := Dropped(t.pc.hs, t.pc.info)))
      .(freed := if t.res.Some? && t.res.value.found then s.freed + {t.res.value.id} else s.freed)
    case Publish(w) =>
      var t := s.threads[w];
      PutThread(s, w, Thread(Sleeping, Some(t.pc.info), t.pc.hs, true))
    case Deliver(w) =>
      if Accepts(s, w) then
        var r := AddrOf(s.board, w).value;
        s.(board := ReturnFrom(clears, s.board, r, 0), main := Telling(w, r, s.threads[w].res), told := s.told + [r])
      else
        PutThread(s, w, s.threads[w].(full := false))
    case Return =>
      // assign_work, then the loop clears the flag: they touch different fields
      AssignWork(PutThread(s, s.main.w, s.threads[s.main.w].(full := false)).(main := Idle))
  }

  ghost predicate CanRun(clears: bool, s: State, acts: seq<Action>)
    decreases acts
  {
    acts == [] || (Enabled(s, acts[0]) && CanRun(clears, Step(clears, s, acts[0]), acts[1..]))
  }

  ghost function Run(clears: bool, s: State, acts: seq<Action>): State
    requires CanRun(clears, s, acts)
    decreases acts
  {
    if acts == [] then s else Run(clears, Step(clears, s, acts[0]), acts[1..])
  }

  ghost predicate Reachable(clears: bool, s: State) {
    exists acts :: CanRun(clears, Initial, acts) && Run(clears, Initial, acts) == s
  }
}
