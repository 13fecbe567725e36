# craplib: verified models of its concurrent core

craplib is a small asynchronous C++ library: worker threads hand messages to a
run loop, the loop fires timers and calls delegates, and on top of that sit an
incremental HTTP header parser with its printer, reference-counted handles,
byte buffers, a resolver pool and a socket dispatcher. This project models
those parts in Dafny and proves what holds over every run.

| files | component |
|---|---|
| `HandOff*.dfy`, `NetInterface.dfy`, `LoopImage.dfy` | message hand-off between workers and the run loop, as a labelled transition system: every lock, test, wait, flag write, push, pop, callback start and end and unlock is a step of its own |
| `TimerQueue.dfy`, `TimerRuns.dfy`, `TimerDrain.dfy`, `RunLoop.dfy` | the timer queue over whole runs, and `RunLoop` and `Timer` as classes |
| `HttpParser.dfy`, `HttpBatch.dfy`, `HttpStartLine.dfy`, `HttpFolding.dfy`, `HttpWords.dfy`, `HttpWriter.dfy`, `HttpRoundTrip.dfy`, `HttpHeaders.dfy`, `HttpRepaired.dfy`, `HttpRequest.dfy`, `HttpPipeline.dfy`, `HttpBody.dfy` | the header parser, its batch meaning, the printer, both round trips, and requests sent one behind the other |
| `RefCount*.dfy` | `SharedPtr` and `WeakPtr` as interleaved atomic count steps |
| `Data.dfy`, `Bridge.dfy` | `Data`, `DataDeque` and `DataStreamBridge` |
| `Pool.dfy`, `PoolBoard.dfy`, `PoolHistory.dfy`, `PoolRouting.dfy`, `PoolTheorems.dfy`, `PoolAnswers.dfy`, `PoolRepeats.dfy`, `ResolverImpl.dfy` | the resolver pool as a transition system with its re-entrant delegates, and its lists as classes |
| `Dispatch.dfy`, `EpollDispatch.dfy`, `EpollTurns.dfy`, `SelectDispatch.dfy`, `SelectTurns.dfy` | both socket dispatch strategies |

Where the code and the evident intent differ, the model follows the code:

- The parser parses a logical line only when the next one begins, and the
  empty line ends the head without parsing the pending line, so the last
  logical line is never applied (`HttpBatch.HeadIsParsed`). A request printed
  without headers therefore parses to nothing. `HttpRepaired` shows that the
  missing parse is all that is missing.
- A start line that is folded is counted as two lines and is then parsed as a
  header, because the line number counts physical lines; `HttpStartLine` says
  exactly when the start line is applied.
- `status` keeps its leading space.
- `isTheOne()` is true for every live handle, so `lock()` never copies, and it
  ignores `position`; `Data.FillReachesWindow` and `Data.FillSparesOther` say
  exactly when `fill` still does what its name says, `Data.CopyReachesWindow` and
  `Data.CopySparesOther` the same of `copy`.
- `WeakPtr::lock` counts the handle it builds in `forNulls` and not in the block
  it goes on to use, and two `lock` calls at once can revive a deleted object.
  The theorems of `RefCountProof` are about runs without `lock`; `RefCountLock`
  says what the counters are worth in all runs.
- `HTTPRequest` parses at most one head per readable event. A second head that
  arrived with the first waits in the body until the socket becomes readable
  again (`HttpPipeline.CaughtUpIff`).
- `cancel_work` assigns to its parameter, which hides the field. The pool is
  modelled both ways: `clears == false` is the code, `clears == true` is what
  the comment in `onCall` expects. Every pool theorem says which one it is
  about; those that leave `clears` open hold of both.

Client rules the model relies on: a worker thread is started once, shared
fields are not touched after `call()`, `call()` is made once per `ActiveCall`,
`waitTermination` follows `requestTermination`, a message is destroyed only
when its thread does not run, a handle is not changed while another thread
copies it, a request object starts one resolution. Objects have identities that
are never reused.

## Model

| member | source | states |
|---|---|---|
| HandOffInvariant.WorkerKeeps | ActiveMsg.h:72-83 | every step of a worker, from taking the message lock to releasing it, keeps the hand-off invariant |
| HandOffMain.MainKeeps | RunLoop.cpp:16-60 | every step of the loop thread's own code, in run() and in requestTermination, keeps it |
| HandOffMain.WakingKeeps | Condition.h:49-62 | so do firing a timer, finding none due, a timed-out wait and a spurious wake-up |
| HandOffMain.ClientKeeps | ActiveMsg.h:24-42 | so do creating, terminating, joining and destroying messages, from inside callbacks too |
| HandOffMain.StartKeeps | ActiveMsg.h:99-102 | and starting a worker |
| HandOffMain.StepKeeps | RunLoop.cpp:12-80 | taken together: every enabled step of any thread keeps the invariant |
| HandOffMain.ReachableInv | RunLoop.cpp:12-80 | the invariant holds after every interleaving of all of these |
| HandOffTheorems.ExclusiveHandOff | ActiveMsg.h:72-83 | a message has at most one token (flagged worker, queue entry, being processed), its flag is set exactly when it has one, and no worker is in its write section while its onCall runs |
| HandOffTheorems.MailboxFifo | AsyncNetInterface.cpp:6-30 | what onCall has observed is a prefix, in order, of what the worker wrote, at most one write behind; what was reported is that prefix filtered |
| HandOffTheorems.AllInterfacesReported | AsyncNetInterface.cpp:11-29 | when the worker is through and nothing is pending, exactly the filtered list was reported, in order |
| HandOffTheorems.ReportedFamilies | AsyncNetInterface.cpp:21-30 | what was reported, by families: with ANY all that was seen; with IP those of family IPv4, IPv6 or IP; with any other filter those of that very family; in order, and no others |
| HandOffTheorems.RunIsMonotone | AsyncNetInterface.cpp:6-30 | over any run the histories of a message only grow and its fixed parts stay |
| HandOffTheorems.NoEnqueueAfterTermination | ActiveMsg.h:104-109 | once requestTermination has released the lock, no later step of any run enqueues that message or writes its fields |
| HandOffTheorems.BlockedWorkerThrows | ActiveMsg.h:72-78 | a worker blocked in ActiveCall at that moment is awake, and four steps of its own take it out through the exception, changing nothing else |
| HandOffTheorems.NoDeadMessageTouched | RunLoop.cpp:38-44 | no enabled step of the library reads or writes a destroyed message |
| HandOffTheorems.DestroyedIsForgotten | RunLoop.cpp:72-80 | after destruction, in its own callback too, neither the queue nor processedMsg ever refers to the message again and its onCall never runs |
| HandOffTheorems.NoLostWakeUp | RunLoop.cpp:65-70 | a nonempty queue means the loop's flag is true or its signal is the next step of the lock holder; a worker asleep on its flag has its message queued or in process, or is being woken |
| HandOffTheorems.LockOrder | RunLoop.cpp:65-70 | locks nest only message before loop |
| HandOffTheorems.NoDeadlock | RunLoop.cpp:17-43 | unless it has finished or waits with an empty queue, the loop thread can act after at most 17 steps of workers |
| HandOffTheorems.QueuedAreRegistered | RunLoop.h:46-55 | msgCnt is the number of live messages, and queued messages are live |
| HandOffTheorems.NaturalExitDropsNothing | RunLoop.cpp:56-59 | when run() returns without stop(), no timer and no message is left |
| HandOffExit.RunReturnsIff | RunLoop.cpp:56-60 | at the exit check the next two steps of the loop end run() if and only if stop() was called, or no timer is set and no message lives; else they begin another round |
| HandOffOrder.QueueIsFifo | RunLoop.cpp:23-36 | over any run, destroyed messages left out, what the loop has popped followed by what is queued is what was queued at first followed by what was pushed, in order |
| HandOffReach.QueuedCanBeProcessed | RunLoop.cpp:17-43 | from every reachable state with run() under way, whoever holds which lock, a continuation runs the onCall of any queued message |
| HandOffRounds.LoopTakesMessage | RunLoop.cpp:16-39 | with its mutex free and messages queued, seven steps of the loop take the oldest one into its onCall, which sees the field the worker wrote; the flag then says whether more wait |
| HandOffRounds.LoopFinishesMessage | RunLoop.cpp:40-44 | after onCall the message's flag is cleared and its worker is awake |
| HandOffRounds.LoopForgetsMessage | RunLoop.cpp:40-44 | a message destroyed in its own callback is left alone |
| HandOffRounds.DueTimersFire | RunLoop.cpp:45-54 | any number of due timers fire one after the other before the exit check of the round |
| HandOffRounds.LoopWaitsIff | Condition.h:49-62 | in every reachable state: the loop goes to sleep if and only if its flag is not set; asleep it can time out if and only if a timer is set, and then goes on without the flag; a spurious wake-up asks for the flag again |
| HandOffRounds.WorkerCalls | ActiveMsg.h:72-83 | with both mutexes free, a whole call writes the next interface of the list, queues the message, sets both flags and frees the mutexes |
| HandOffRounds.WorkerBlocks | ActiveMsg.h:72-78 | a worker whose last call is not through sleeps, with the mutex free |
| HandOffRounds.SetWakesLoop | Condition.h:84-88 | setting the loop's flag wakes the loop if it sleeps, to ask for the flag again |
| HandOffRounds.TerminationMarks | ActiveMsg.h:104-109 | requestTermination marks the message, clears its flag, wakes its worker and changes nothing else |
| HandOffRounds.JoinWaits | ActiveMsg.h:111-114 | waitTermination can go on if and only if the thread has ended, and changes nothing |
| HandOffRounds.CreatedMessage | ActiveMsg.h:24-36 | a new message starts alive, unflagged and unseen, and keeps its list and filter over any run |
| HandOffLife.WholeLife | RunLoop.cpp:12-63 | for every list and filter, a run from the constructor to the return of run(): the whole list is seen, the filtered list reported, the message destroyed and nothing left |
| HandOffLife.WorkerWakesOrQuits | Condition.h:49-54 | a spurious wake-up makes a worker ask for its flag again; a worker may end between two calls |
| HandOffLife.StopEndsRun | RunLoop.cpp:14-63 | stop() in a timer's callback ends run() in that round, whatever lives |
| LoopImage.EnqueueIsFourSteps | RunLoop.cpp:65-70 | the four steps of a worker in enqueue do to the loop's fields what the method EnqueueMsg does, and nothing else but release the mutex |
| LoopImage.PopIsThreeSteps | RunLoop.cpp:31-37 | the three steps of the loop thread under its mutex do what the method PopMsg does |
| LoopImage.ClientStepsShow | RunLoop.h:46-55 | creating, destroying and stopping do what the methods RegisterMsg, ForgetMsg and Stop do |
| TimerQueue.RemoveKeepsOrder | RunLoop.cpp:89-94 | remove and erase keep the queue sorted and duplicate-free |
| TimerQueue.ArmMembers | Timer.cpp:19-29 | after set() the queue holds the timer once, with the new time, and the others as before |
| TimerQueue.ArmIsSafe | RunLoop.cpp:82-87 | cancel, new key and binary insertion keep the queue sorted and duplicate-free |
| TimerRuns.RunKeepsQueueGood | RunLoop.cpp:45-54 | so does every run of sets, cancels and drain checks |
| TimerRuns.FiringsAscend | RunLoop.cpp:45-54 | with a monotone clock and nonnegative delays, all firings of a run come in order of fire time and none before its time |
| TimerRuns.CancelledNeverFires | Timer.cpp:8-17 | a cancelled or destroyed timer does not fire in any run that does not set it again |
| TimerRuns.QueueRefinesBench | RunLoop.cpp:45-94 | the queue fires exactly what an unordered table of armed timers fires: the least fire time, the latest set() first among equals |
| TimerRuns.SetFiresOnce | Timer.cpp:19-29 | each set() is answered by at most one firing |
| TimerDrain.DrainStep | RunLoop.cpp:45-54 | a pass of the drain loop fires the front timer and goes on from the queue its callback leaves |
| RunLoop.FindLowerBound | RunLoop.cpp:84-86 | halving finds the first position whose fire time is not less, by comparing through the pointers |
| Common.RemoveErase | RunLoop.cpp:91-93 | the loop of remove and erase deletes all occurrences and keeps the order of the others |
| RunLoop.RunLoop.EnqueueMsg | RunLoop.cpp:65-70 | changes the object's fields as the four steps of the hand-off do (LoopImage) |
| RunLoop.RunLoop.PopMsg | RunLoop.cpp:31-37 | changes the object's fields as the three steps of the hand-off do |
| RunLoop.RunLoop.ForgetMsg | ActiveMsg.h:39-42 | dequeue and deregister together change the object's fields as destruction does in the hand-off; the flag stays |
| RunLoop.RunLoop.EnqueueTimer | RunLoop.cpp:82-87 | the deque of references then lists the specification's insertion |
| RunLoop.RunLoop.DequeueTimer | RunLoop.cpp:89-94 | the deque of references then lists the specification's removal |
| RunLoop.RunLoop.SetTimer | Timer.cpp:19-29 | although the key of a queued object changes, the deque then lists the specification's re-armed queue |
| RunLoop.RunLoop.PerformAll | Timer.cpp:14-29 | a callback's sets and cancels take the deque where the event semantics does |
| RunLoop.RunLoop.DrainTimers | RunLoop.cpp:45-54 | the drain loop with re-entrant callbacks fires what the event semantics fires and leaves its queue |
| HttpParser.HTTPHeadersParser.Accept | HTTPRequest.cpp:49-94 | one byte takes the object where the value-level parser goes, and says whether write returns |
| HttpParser.HTTPHeadersParser.ParseLineNow | HTTPRequest.cpp:6-41 | a line changes the parsed fields alone, by stream extraction |
| HttpParser.HTTPHeadersParser.Write | HTTPRequest.cpp:43-96 | write leaves the parser and the unread bytes of the value-level parser |
| HttpBatch.SplitIsInverse | HTTPRequest.cpp:57-77 | splitting at line feeds loses and invents no byte |
| HttpBatch.HeadIsParsed | HTTPRequest.cpp:43-96 | for all bytes whose first empty line ends within limit-1 bytes: the fields are parseLine applied in order to every logical line but the last, lines folded as in section 4.2 of RFC 2616, and exactly the bytes after the empty line are left |
| HttpBatch.NoHeadIsParsed | HTTPRequest.cpp:48-55 | without an empty line in reach of the limit: the parser is not ready, has applied every logical line known to be complete, and has read up to the limit |
| HttpBatch.ReadyIffHeadFits | HTTPRequest.cpp:50-70 | the parser becomes ready if and only if the first empty line ends within limit-1 bytes |
| HttpBatch.ChunkInvariance | HTTPRequest.cpp:43-96 | any split into chunks gives the ready flag and fields of one write, and the same parser and rest unless the limit is reached |
| HttpBatch.ChunkedHead | HTTPRequest.cpp:43-96 | for any split: ready if and only if the head fits, and then the batch fields and exactly the rest of the bytes |
| HttpStartLine.StartLineAppliedIff | HTTPRequest.cpp:11-24 | for every head: its start line is parsed as one if and only if a second line follows that does not begin with a blank; then exactly the first line determines method, query, version, code and status, else all keep their initial values |
| HttpStartLine.FoldedStartLineIsLost | HTTPRequest.cpp:80-91 | an input: a request with a folded start line, whatever headers follow, is accepted without method, query and version |
| HttpFolding.FoldedHeadersAreParsed | HTTPRequest.cpp:80-91 | for every start line and all headers folded over any number of lines that begin with a space or a tab: the value of each header but the last is the whole text behind its name, the first of a name wins, and there are no other names |
| HttpFolding.NextLineIsNew | HTTPRequest.cpp:80-91 | a line that begins with anything but a space or a tab, whatever it says and whatever follows, ends the header before it |
| HttpWords.HeaderLineMeans | HTTPRequest.cpp:26-39 | a header line with its white space written out: the first word without its last character gets the rest without its first; without a word or a rest, or when the name is there, the line is ignored |
| HttpWords.LineHasParts | HTTPRequest.cpp:26-39 | every line is of that form |
| HttpWords.RequestLineMeans | HTTPRequest.cpp:11-16 | method, query and version are the first three words between white space; a missing word leaves its field |
| HttpWords.StatusLineMeans | HTTPRequest.cpp:18-23 | version, signed number and all the rest; a number beyond 32 bits is clamped and leaves the status as it was |
| HttpWords.NoCode | HTTPRequest.cpp:18-23 | without a number code and status stay as they were |
| HttpWriter.InsertHeaderMembers | HTTPRequest.h:69-71 | a header is kept unless its name is present, and the others stay |
| HttpWriter.InsertKeepsAscending | HTTPRequest.h:69-71 | the header map stays in strictly ascending order of names |
| HttpWriter.LessIsPrecedes | HTTPRequest.h:117-117 | that order is the one of dictionaries: a proper prefix, or smaller at the first difference |
| HttpWriter.HTTPHeadersWriter.AddHeader | HTTPRequest.h:69-71 | the object's map becomes the specification's |
| HttpWriter.HTTPHeadersWriter.SetRequest | HTTPRequest.cpp:126-131 | the request line is stored with its line end |
| HttpWriter.HTTPHeadersWriter.SetResponse | HTTPRequest.cpp:119-124 | the status line is stored with its line end |
| HttpWriter.HTTPHeadersWriter.GetData | HTTPRequest.cpp:98-117 | fails exactly without a first line; else yields first line, headers in order and empty line, and clears both |
| HttpWriter.PrintedRequest | HTTPRequest.cpp:98-131 | letter by letter: a POST with two headers, added in either order, prints in the order of names with colon, space and line ends |
| HttpWriter.PrintedWordsAre | HTTPRequest.h:76-111 | the words of the other methods and versions, and of two codes |
| HttpRoundTrip.HeaderRoundTrip | HTTPRequest.cpp:24-40 | a printed header line parses to its header, the first of a name winning |
| HttpRoundTrip.RequestLineRoundTrip | HTTPRequest.cpp:12-16 | a printed request line parses to method, query and version |
| HttpRoundTrip.StatusLineRoundTrip | HTTPRequest.cpp:18-23 | a printed status line parses to version, code and the status behind a space |
| HttpRoundTrip.DecimalRoundTrip | HTTPRequest.cpp:122-122 | decimal printing is read back as the same number |
| HttpRoundTrip.RequestRoundTrip | HTTPRequest.cpp:98-131 | parsing a printed request recovers method, query, version and every header except the one with the greatest name, and leaves the bytes after it |
| HttpRoundTrip.ResponseRoundTrip | HTTPRequest.cpp:98-124 | the same of responses: version, code, status behind a space |
| HttpRoundTrip.NoHeadersNothingParsed | HTTPRequest.cpp:65-70 | a request printed without headers parses to no fields at all |
| HttpRoundTrip.QueryComesBackIff | HTTPRequest.cpp:12-16 | the query comes back if and only if it is nonempty and free of white space |
| HttpHeaders.ParsedHeadersAreGood | HTTPRequest.cpp:26-39 | whatever bytes come, parsed names have no white space and parsed values no line end |
| HttpHeaders.HeaderComesBackIff | HTTPRequest.cpp:98-117 | a printed header that is not the greatest comes back if and only if its name has no white space and its value no line end |
| HttpRepaired.RepairAddsLastLine | HTTPRequest.cpp:65-70 | for all bytes, a parser that also parses the pending line at the empty line differs from the code by that one parse |
| HttpRepaired.RepairedRoundTrip | HTTPRequest.cpp:98-131 | with it the whole request comes back, all headers and even with none |
| HttpRequest.HTTPRequest.OnCanRead | HTTPRequest.cpp:140-167 | one readable event: in the body state it only notifies; else it reads if the body is empty, parses, and on a complete head reports it, changes state and starts a new parser on the leftover bytes; the delegate may reset() inside either callback |
| HttpBody.BodyNoticeIff | HTTPRequest.cpp:140-167 | over every sequence of readable events and resets: the delegate's onCanRead is called at exactly the readable events after a reported head with no reset() since; any other reports a head or nothing |
| HttpBody.HeadsUpTo4095Bytes | HTTPRequest.h:32-34 | a new request reports a head at once if and only if one ends within the first 4095 bytes |
| HttpPipeline.ReportsAreHeads | HTTPRequest.cpp:140-160 | over every sequence of readable events and resets: what onHeaders reported are the first heads of the bytes taken off the socket, in order, each parsed alone, and the heads not reported are those in the body |
| HttpPipeline.AllReportedIff | HTTPRequest.cpp:145-149 | every head taken in has been reported if and only if the body holds no further head |
| HttpPipeline.CaughtUpIff | AsyncSocket.h:93-96 | every head taken in by one run is reported by its continuation if and only if that has as many readable events, each met in the header state, as heads were left in the body |
| HttpPipeline.EagerIsActive | HTTPRequest.h:156-158 | with a delegate that resets in every callback each readable event counts |
| HttpPipeline.HeadsOfJoined | HTTPRequest.cpp:43-96 | a stream of whole heads has exactly those heads in front |
| HttpPipeline.SecondHeadWaits | HTTPRequest.cpp:140-160 | an input: of two heads that arrive in one read the second stays unreported without another readable event, however often reset() is called, and is reported by the next |
| RefCountProof.StepKeeps | WeakPtr.h:33-91 | every atomic count step of create, copy, convert, swap and destroy keeps the invariant |
| RefCountProof.CountersAreExact | SharedPtr.h:20-31 | in every interleaving without lock(), sc and wc equal the handles that hold them, plus one for forNulls |
| RefCountProof.LastHolderCleansUp | WeakPtr.h:38-43 | an object is deleted (or about to be) exactly when its last strong handle has gone, a block when its last handle has, each once |
| RefCountProof.NullsNeverDie | WeakPtr.h:105-106 | the shared block of null pointers is never freed |
| RefCountProof.NothingDeadIsUsed | SharedPtr.h:46-74 | no step uses a freed block, and every strong handle's object is alive |
| RefCountAssign.ObjectIsMade | SharedPtr.h:46-50 | a new SharedPtr points to its object, or is null, on a block of its own that counts it alone |
| RefCountAssign.NullIsMade | WeakPtr.h:56-61 | a handle without argument is null and is counted on the shared block of nulls |
| RefCountAssign.SwapExchanges | WeakPtr.h:69-73 | swap exchanges block and object of two handles and changes nothing else |
| RefCountAssign.RunLeavesAim | WeakPtr.h:69-73 | over any run, with lock() too, a handle that is not swapped and does not delete its object points where it did |
| RefCountAssign.FinishedCopy | WeakPtr.h:63-68 | in any run, with lock() too, a finished copy points where its source does, and that has not changed since it was read |
| RefCountAssign.AssignmentMoves | SharedPtr.h:69-74 | from every state reached without lock(), the steps of an assignment leave the target with the source's block and object and every other handle as it was; the old object is deleted, and the old block freed, if and only if the target was its only holder and the source points elsewhere |
| RefCountLock.NullCountExactIff | SharedPtr.h:33-38 | with lock(), the count of forNulls is exact if and only if no lock() of a non-null pointer has built a handle |
| RefCountLock.BlockCountExactIff | WeakPtr.h:93-102 | with lock(), the count of any other block is its holders less one for each handle lock() has built on it, so it is exact if and only if there is none |
| RefCountLock.StrongCountWithLocks | WeakPtr.h:93-102 | in every run sc counts the strong handles and the lock() calls under way |
| RefCountLock.LockOfOwnerlessIff | WeakPtr.h:95-98 | lock() on an object without owners goes on to build a handle if and only if another lock() on it is under way |
| RefCountLockRuns.LockBreaksTheCounts | WeakPtr.h:93-102 | a run: one lock() whose result is dropped leaves a weak pointer on a freed block |
| RefCountLockRuns.TwoLocksRevive | WeakPtr.h:93-102 | a run: of two lock() calls on a deleted object the second builds a live strong handle on it |
| Data.Data.Slice | Data.cpp:48-52 | fails exactly out of range; else a view of the same bytes, truncated; a negative length gives an object of that size |
| Data.Data.GetByte | Data.h:38-44 | takes the first byte of the view, or yields zero when empty |
| Data.Data.Assign | Data.cpp:54-59 | the target becomes a view of the other's buffer, also when it is itself |
| Data.Data.Fill | Data.cpp:81-84 | the buffer changes from its beginning, whatever the position |
| Data.Data.CopyFrom | Data.cpp:86-93 | fails exactly out of range; else as many bytes as fit overwrite the buffer, counted from its beginning, overlapping windows included |
| Data.CopyLandsEarly | Data.cpp:86-93 | what a window holds after a copy: the bytes from index `position` on, then its old tail; the copied bytes at position 0 |
| Data.CopyReachesWindow | Data.cpp:86-93 | the window shows the bytes copied if and only if they repeat after `position` places and the tail missed showed their end already |
| Data.CopySparesOther | Data.cpp:86-93 | another view of the buffer keeps its bytes if and only if the bytes copied over it are the ones that were there |
| Data.CopyMissesItsWindow | Data.cpp:86-93 | an input: a copy into a window at position 1 misses the window and changes another view |
| Data.FillReachesWindow | Data.cpp:71-84 | fill sets all bytes of the view if and only if the part it misses held the value already; always at position 0 |
| Data.FillSparesOther | Data.cpp:71-84 | another view of the buffer keeps its bytes if and only if those that are hit held the value already |
| Data.CopyIsNotOnWrite | SharedPtr.h:63-63 | a concrete fill that changes another view |
| Data.OpConserves | Data.cpp:124-160 | each deque operation conserves the bytes in order |
| Data.DequeIsByteFifo | Data.cpp:124-160 | over every sequence of operations, bytes read followed by bytes held are the bytes written |
| Data.TakeAtMost | Data.cpp:130-160 | a read yields at most max_size bytes, all of the oldest chunk if it is no longer, else as many as asked |
| Data.ReadsDrain | Data.cpp:130-148 | that many reads drain the deque and yield all of it |
| Data.DataDeque.Write | Data.cpp:124-128 | appends the chunk; the size stays the sum of the chunks |
| Data.DataDeque.Read | Data.cpp:130-148 | yields a chunk or a prefix of one and keeps the rest, through shared buffers; a negative max_size throws exactly when the deque is not empty, and leaves the deque alone |
| Data.DataDeque.ReadWhole | Data.cpp:150-160 | yields the oldest chunk |
| Bridge.DataStreamBridge.MoveData | Data.cpp:111-122 | nothing is lost, repeated or reordered; it ends with the source dry and the buffer empty, or at a short write |
| PoolBoard.AssignedKeeps | AsyncAddrInfo.cpp:192-201 | handing out work keeps free and working apart and requests distinct, and exactly the front request gets a worker |
| PoolBoard.ReturnFrees | AsyncAddrInfo.cpp:162-173 | the swap-remove loop frees exactly the worker that has the request, or nobody |
| PoolBoard.CancelledKeeps | AsyncAddrInfo.cpp:151-160 | a cancelled request neither waits nor has a worker afterwards; nobody else is touched |
| PoolRouting.StepKeeps | AsyncAddrInfo.cpp:76-134 | every step of clients, worker threads and callbacks keeps the pool's invariant |
| PoolTheorems.PoolPartition | AsyncAddrInfo.cpp:145-203 | free and working workers are disjoint and 0 or 2 in all, working ones have distinct requests that do not wait, and every request not cancelled is in exactly one of waiting, working or told |
| PoolTheorems.ArrivalOrder | AsyncAddrInfo.cpp:196-201 | requests started, without those withdrawn while waiting, are those handed out followed by those waiting, in order |
| PoolTheorems.NobodyIdles | AsyncAddrInfo.cpp:176-203 | while no request was cancelled in flight, no worker is free between callbacks if a request waits |
| PoolTheorems.CancelIdlesIff | AsyncAddrInfo.cpp:151-160 | a cancellation leaves a free worker beside waiting requests if and only if it was in flight and others waited |
| PoolTheorems.EveryTellingIsRight | AsyncAddrInfo.cpp:76-85 | with the clearing: who is told is alive, is worked on, was not told before, and gets an answer of this worker to its own host and service that is not freed |
| PoolTheorems.ToldAtMostOnce | AsyncAddrInfo.cpp:176-181 | with the clearing: each request is told at most once, and never if cancelled |
| PoolTheorems.GoneIsNeverTold | AsyncAddrInfo.cpp:151-160 | with the clearing: in no continuation is a destroyed request told |
| PoolTheorems.AnswerOutlivesCallback | AsyncAddrInfo.cpp:128-133 | while a delegate runs, its answer is in place, answers its question and is not freed, whatever threads and clients do |
| PoolAnswers.NoAnswerLeaks | AsyncAddrInfo.cpp:128-133 | in every run, with and without the clearing: the answers found are those freed and those in the hands of a worker; none is both, and none is in two hands |
| PoolTheorems.NobodyIsForgotten | AsyncAddrInfo.cpp:87-135 | every request a worker has can be told by steps of that worker and the loop alone, stale lookups first |
| PoolTheorems.AsWrittenRight | AsyncAddrInfo.cpp:76-85 | as written, every delivery is right until a request is cancelled in flight |
| PoolTheorems.AsWrittenStaleIff | AsyncAddrInfo.cpp:50-57 | as written, onCall looks at a request nobody works on if and only if the answer comes for a free worker |
| PoolTheorems.AsWrittenDeadReadIff | AsyncAddrInfo.cpp:50-57 | as written, a destroyed request is read in some continuation if and only if a worker that last had it still owes an answer |
| PoolTheorems.AsWrittenInFlightCancel | AsyncAddrInfo.cpp:151-160 | so cancelling in flight always exposes the request |
| PoolTheorems.DeadRequestIsTold | AsyncAddrInfo.cpp:76-85 | for every request, a run in which it is told after its destruction |
| PoolRepeats.AsWrittenRepeatIff | AsyncAddrInfo.cpp:76-85 | as written, a delivery is a repeat, or goes to a request cancelled in flight, if and only if the answer comes for a free worker |
| PoolRepeats.LiveRequestToldTwice | AsyncAddrInfo.cpp:76-85 | for any two requests for the same host and service, a run in which the second is alive, not cancelled and told twice |
| PoolTheorems.ClearedNeverReadDead | AsyncAddrInfo.cpp:76-85 | with the clearing, onCall only ever looks at live requests that are worked on |
| ResolverImpl.Worker.StartWork | AsyncAddrInfo.cpp:42-49 | the worker gets the request and its lookup at the end of its deque |
| ResolverImpl.Worker.CancelWork | AsyncAddrInfo.cpp:50-57 | says whether the request was this worker's; forgets it only if clearing |
| ResolverImpl.Impl.AssignWork | AsyncAddrInfo.cpp:183-203 | builds the two workers if there are none, then the object's lists are those of the specification |
| ResolverImpl.Impl.ReturnWorkerWith | AsyncAddrInfo.cpp:162-173 | the loop over the object's deque gives the lists of the specification |
| ResolverImpl.Impl.StartResolve | AsyncAddrInfo.cpp:145-149 | queues the request, then hands out work |
| ResolverImpl.Impl.CancelResolve | AsyncAddrInfo.cpp:151-160 | withdraws a waiting request, else frees its worker |
| Dispatch.NoCallAfterDeregister | AsyncSocketEpoll.h:85-89 | in a licensed log, a call on a deregistered socket has a registration in between |
| EpollDispatch.BadAreNothingElse | AsyncSocketEpoll.cpp:32-46 | in a batch a socket with an error is in neither of the other queues |
| EpollDispatch.QueuesOfChange | AsyncSocketEpoll.cpp:32-46 | for every change of a batch: its socket is in the queues its flags ask for and in no other, behind the changes before it and before those after it |
| EpollDispatch.EpollLicensed | AsyncSocketEpoll.cpp:52-78 | whatever callbacks register and deregister, only sockets registered at that moment are called |
| EpollDispatch.EpollOrder | AsyncSocketEpoll.cpp:57-77 | disconnections, then reads, then writes, each for the sockets of its queue only |
| EpollDispatch.DisconnectIsLast | AsyncSocketEpoll.cpp:52-78 | no onCanRead or onCanWrite for a socket that got onDisconnect in that drain, even if it was registered again |
| EpollDispatch.StaleChangeReachesNewcomer | AsyncSocketEpoll.cpp:65-77 | a socket deregistered and registered again inside a callback is still called for the old change |
| EpollTurns.NewcomerCalledIff | AsyncSocketEpoll.cpp:52-78 | a socket deregistered before its pop is called if and only if the last word on it in the log then is a registration |
| EpollTurns.EpollCallsIff | AsyncSocketEpoll.cpp:52-78 | for every batch, every script of callbacks and every queued change: the socket gets its call if and only if the last word on it before its pop is a registration, or nothing was said and it was a client from the start |
| EpollTurns.CallsUseTheScript | AsyncSocketEpoll.cpp:52-78 | over a drain the callbacks use up their script, one part for each call |
| EpollDispatch.EpollServes | AsyncSocketEpoll.cpp:65-77 | a client that stays registered gets every call its changes ask for |
| EpollDispatch.SocketWorker.Collect | AsyncSocketEpoll.cpp:32-46 | the loop sorts the batch into the three queues |
| EpollDispatch.SocketWorker.Handle | AsyncSocketEpoll.cpp:52-78 | the three loops over the object's deques, callbacks included, do what the specification does and leave the queues empty |
| EpollDispatch.SocketWorker.RegisterSocket | AsyncSocketEpoll.h:63-83 | adds the client unless the limit is reached or the system refuses |
| EpollDispatch.ClientsUpTo64999 | AsyncSocketEpoll.h:63-68 | a new client is taken if and only if the system agrees and there are at most 64998 |
| SelectDispatch.SelectLicensed | AsyncSocketSelect.cpp:67-103 | the drain that never checks calls registered sockets only, and the worker's condition is true exactly when there are clients |
| SelectDispatch.NoCallOncePurged | AsyncSocketSelect.h:80-90 | after a deregistration the socket is not called in that drain, not even when registered again |
| SelectDispatch.SelectOrder | AsyncSocketSelect.cpp:86-102 | reads, then writes, then disconnections |
| SelectDispatch.SelectServes | AsyncSocketSelect.cpp:69-102 | a client that stays registered gets every call its descriptor asks for |
| SelectTurns.SelectLogIs | AsyncSocketSelect.cpp:84-102 | the log of a drain is reads, then writes, then disconnections, each followed at once by the registrations and deregistrations its callback asked for, and nothing else |
| SelectDispatch.SocketWorker.DeregisterSocket | AsyncSocketSelect.h:80-90 | the socket leaves the clients and all three queues, and the flag follows |
| SelectDispatch.SocketWorker.Handle | AsyncSocketSelect.cpp:67-103 | the loops over the object's deques, which callbacks purge while they are drained, do what the specification does |

## Left out

- HandOffTheorems.DestroyedIsForgotten: `RunLoop::dequeue` takes no lock; it is one atomic step here, an assumption the code does not enforce against a concurrent push.
- HandOffTheorems.NoDeadlock: waits that end only outside (a worker inside a system call, a client callback that does not return) are no deadlocks here; a loop started with no timers and no messages, which waits before its exit test, counts as idle.
- HandOffTheorems.NaturalExitDropsNothing: the hand-off sees the timer queue as a count that callbacks may change freely; its order is the matter of the timer modules.
- TimerRuns.FiringsAscend: times are mathematical reals; rounding of doubles and the added millisecond of the loop's wait are not modelled.
- HttpParser.HTTPHeadersParser.Write: `count` and `lineNum` are unbounded, a byte is a char below 256 in meaning only, and the C locale decides what white space is.
- HttpRoundTrip.RequestRoundTrip: asks for names without white space and values without line ends, since others are folded, split or cut by the parser.
- PoolTheorems.NobodyIsForgotten: says a run exists; fairness of threads and the time a lookup takes are not modelled.
- PoolTheorems.AsWrittenDeadReadIff: asked between callbacks; the state inside a delegate's callback reaches such a state by returning.
- PoolTheorems.PoolPartition: the worker destructor, which joins a thread while holding the lock that thread needs, is not part of this model; neither is shutdown of the pool.
- EpollDispatch.DisconnectIsLast: relies on one change per socket in a batch, as epoll_wait reports them; for other batches `EpollLicensed` and `NoCallAfterDeregister` remain.
- SelectDispatch.SelectLicensed: descriptors are sockets themselves; a descriptor number reused by another socket before the drain is not modelled.
- `Data::compare` and the operators built on it are not modelled: they are easy.
- Data.Data.GetByte: asks for a size that is not negative, as do `fill` and `copy`; an object sliced with a negative length can be assigned and measured only, since the code reads outside its buffer otherwise.
- HttpRequest.HTTPRequest.OnCanRead: bytes that a delegate reads from the socket itself are not part of the stream the theorems speak of; a request destroyed inside its own callback is not modelled.
- HTTPRequest::onCanWrite and onDisconnect only pass the event on to the delegate; easy.
- HandOffReach.QueuedCanBeProcessed: says a run exists; a fair schedule of threads is not modelled.
- Freed memory, memory ordering and reuse of addresses are replaced by unique identities.
- Real sockets, epoll and select calls, name lookups, interface lists and files are inputs chosen freely.
- AsyncSSL and AsyncSecureSocket: OpenSSL is opaque, and the secure socket is a stub that repeats the bridge.
- AsyncSocketKevent: drains as the epoll worker does and adds kernel calls only.
- Singletons, thread-local storage, static reference counts, mutex and thread wrappers, logging and the unit-test kit would add easy members only.
