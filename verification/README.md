# ICE coroutine protocols: model and proofs

ICE is a C++ coroutine framework: an asynchronous mutex, an asynchronous generator, the coroutine type `async<T>`, an event
loop (`context`) with the retry loop that drives every operation (`event`), and a small pipelining HTTP responder built
on them. This project models these protocols in Dafny and proves what they promise in every interleaving.

Concurrent protocols are step systems. A `State` holds the shared words and where every coroutine or thread is;
`Apply` performs one atomic load, store, compare-exchange or exchange (or one plain access to memory that another
coroutine also uses); a run is any sequence of enabled steps. Results about runs are quantified over all of them, so
over all interleavings. The parts of the code that run without interference are methods on objects and arrays, with
the loops of the source.

| file | what it holds |
|---|---|
| `Mutex.dfy` | `async_mutex` for any number of coroutines, with spurious failures of the weak compare-exchange; its specification, one holder and a FIFO queue; the inductive invariant and the refinement |
| `MutexRuns.dfy` | what callers rely on: exclusion, no lost waiter, bounded bypass, the in-place reversal under interference, the destructor |
| `MutexProgress.dfy` | lock-freedom: a measure that every step of the mutex lowers, and a bound on runs of any number of coroutines |
| `MutexHeap.dfy` | the mutex as an object whose waiters are linked in memory |
| `Generator.dfy` | the five-state protocol between an `async_generator` and its consumer, and a bound on its steps |
| `Completion.dfy` | the completion handshake of `async<T>` for chains of any length |
| `Context.dfy` | `context::run` and `stop` for any number of threads: thread accounting and the wake-up cascade |
| `Event.dfy` | the register / wake / retry loop of `event` |
| `Send.dfy` | the POSIX branch of the TCP `send` operation, as a value and as an object |
| `Scanner.dfy` | the blank-line scanner of the connection handler |
| `Responder.dfy`, `ResponderRuns.dfy` | handler, responders, mutex, send and scanner composed on one socket |
| `ResponderProgress.dfy` | the responder ends: a bound on its runs, and what holds where no step is left |
| `ResponderFailure.dfy` | a receive that fails, and what it destroys under the responders |
| `Sequences.dfy`, `Wrappers.dfy` | facts about sequences; the optional value |

A state of the mutex is `Consistent` when its memory represents a lock; `Mutex.RefinesFifoLock` shows that every state
of every run is. A few results are stated for consistent states because the responder's mutex is driven by a larger
system; the modules of the responder apply them there.

Assumptions about use. The mutex is unlocked by its holder. A generator has one consumer, which awaits every begin and
increment, does not advance past the end, and destroys the generator only outside an advance. An `async` is awaited
once and not destroyed while its awaiter is registered. Atomics are sequentially consistent. Resuming a coroutine makes
it runnable while the resumer goes on at any later time, which covers the nested call as well as a coroutine that
carries on in another thread. A responder starts inside the call by the handler, which goes on only after the responder
has first suspended itself or ended. What a kernel call answers is arbitrary, except that `write` never reports more bytes
than it was given and a failure has a non-zero code.

Three findings about the code.

- A `send` that ends without an error may have stopped short. `Send.ShortSendExists` is such a run: the first `write`
  returns zero. The send is complete if and only if no `write` returned zero while bytes were left
  (`Send.CompletedSend`), and the caller's comparison of the count with the size detects exactly that
  (`Send.CountDetectsShortSend`).
- `handle` destroys its mutex and its socket when `recv` fails, even while responders use them.
  `ResponderFailure.FailureCanBreakAssertions` is a run of 19 steps in which the mutex destructor's assertions fail: two
  requests in one chunk, a first `write` that would block, then a failing `recv`. The first responder is then suspended
  in its send and the second in the queue of the mutex. `ResponderFailure.ReceiveFails` has the exact condition for the
  assertions to hold with no `unlock` at work on the queue; in the middle of one they can hold while its waiters are
  detached. `ResponderFailure.FailureIsHarmless` has the stricter condition under which no responder is left to use the
  destroyed objects.
- `context::stop` answers "no thread was running" for every multiple of 2^31 counted threads, not only for zero
  (`Context.StopReportsIdle`). `Context.StopMiscounts` is such a run. It shows the limit of a 32-bit word; no supported
  system holds that many threads.

## Model

| member | source | states |
|---|---|---|
| Mutex.StepKeepsInv | include/ice/async.h:1073-1129 | every step of `try_lock`, `await_suspend` and `unlock`, spurious failures included, keeps the lists in memory well formed, disjoint and equal to the set of suspended operations, with one owner |
| Mutex.StepSafe | include/ice/async.h:1087-1110 | no assertion of `unlock` fails, and no null or dangling operation is dereferenced or resumed |
| Mutex.StepRefines | include/ice/async.h:1073-1129 | each step is one step of the FIFO lock: push is enqueue, writing `m_waiters` is the hand-over, the rest is no change |
| Mutex.StutterKeepsQueue | include/ice/async.h:1097-1106 | detaching the stack and every round of the reversal leave the abstract queue as it was |
| Mutex.ViewUnique | include/ice/async.h:1006-1007 | the memory of a consistent state determines holder and lists, so the abstract lock is a function of it |
| Mutex.RefinesFifoLock | include/ice/async.h:991-1129 | over every run the mutex is a holder with a FIFO queue, starting free, and all its assertions hold |
| MutexRuns.MutualExclusion | include/ice/async.h:1004-1006 | at most one owner; `m_state` is `not_locked` exactly when there is none, and then nothing is queued |
| MutexRuns.NoLostWaiter | include/ice/async.h:1112-1129 | an operation is suspended if and only if it is queued, exactly once, or is the chosen holder about to be resumed |
| MutexRuns.QueueReadsMemory | include/ice/async.h:1006-1007 | at every position of the owner, those inside `unlock` included: the queue is the part of a detached stack not yet reversed, backwards, then the holder's list, then the stack in `m_state` backwards; the holder is the owner, or the waiter it is about to resume |
| MutexRuns.WaitersHaveAnOwner | include/ice/async.h:1087-1110 | while an operation is suspended there is an owner, and it can move |
| MutexRuns.DestructorSafe | include/ice/async.h:1067-1071 | the destructor's assertions hold whenever no operation is suspended |
| MutexRuns.DestructorExactly | include/ice/async.h:1067-1071 | nobody is queued if and only if the destructor's assertions hold and no `unlock` is refilling or taking from the holder's list |
| MutexRuns.TryLockNeverOvertakes | include/ice/async.h:1073-1077 | `try_lock` has an effect only if the lock is free and nobody is queued |
| MutexRuns.ReversalStep | include/ice/async.h:1099-1106 | each step of the reversal counts down by exactly one, stays in the loop until zero, and keeps the reversal of the detached stack |
| MutexRuns.ReversalFrame | include/ice/async.h:1100-1105 | the reversal touches neither operations pushed after the exchange nor their links |
| MutexRuns.OthersDoNotDisturb | include/ice/async.h:1097-1106 | steps of other coroutines change neither the unlocker's position nor its lists nor who owns the lock |
| MutexRuns.ReversalOverRun | include/ice/async.h:1097-1108 | over any run, whatever other coroutines do in between: the reversal of a detached stack ends after exactly two steps of the unlocker per operation, with those operations linked in exactly reverse order and none twice |
| MutexRuns.ReversalWritesOnlyDetached | include/ice/async.h:1100-1105 | over any run, the unlocker's steps in the reversal write no link of an operation outside the detached stack, and not the lock word |
| MutexRuns.RankFalls | include/ice/async.h:1087-1110 | a waiter's rank falls by one at each hand-over and changes at nothing else |
| MutexRuns.BoundedBypass | include/ice/async.h:1087-1129 | a waiter with r others ahead gets the lock at hand-over r + 1 |
| MutexRuns.TurnSafe | include/ice/async.h:1109-1128 | only a suspended coroutine is resumed, and only a running one suspends itself |
| MutexRuns.ResumedOncePerSuspension | include/ice/async.h:1109-1128 | over any run, each suspension is ended by exactly one resumption or is still going on |
| MutexHeap.AsyncMutex.constructor | include/ice/async.h:991-1008 | a new mutex is free, with nobody queued |
| MutexHeap.AsyncMutex.TryLock | include/ice/async.h:1073-1077 | takes the lock exactly if it is free, and leaves the queue alone |
| MutexHeap.AsyncMutex.AwaitSuspend | include/ice/async.h:1112-1129 | for any number of spurious failures, takes a free lock or appends the operation to the queue |
| MutexHeap.AsyncMutex.Unlock | include/ice/async.h:1087-1110 | frees the lock if nobody is queued, else removes the oldest waiter and returns it; the stack is rewritten only when the holder's list is empty |
| MutexHeap.AsyncMutex.Refill | include/ice/async.h:1097-1106 | the detached arrivals become the holder's list, oldest first, and the lock word says that nobody has arrived since |
| MutexHeap.ReverseChain | include/ice/async.h:1099-1106 | the in-place loop terminates and leaves the detached operations linked in exactly reverse order, writing no others |
| MutexProgress.StepDescends | include/ice/async.h:1087-1129 | with at most k coroutines entering the mutex, for any k, every step of `await_suspend` and `unlock` lowers the measure by one, up to a price for spurious failures; a write of the lock word pays for every expectation it makes outdated |
| MutexProgress.RunIsBounded | include/ice/async.h:1073-1129 | lock-freedom: with at most k coroutines entering at a time, a run has at most (12 + 4k) steps per `lock_async`, 8 + 4k per `try_lock`, one per coroutine and two per spurious failure, retries and hand-overs included |
| MutexProgress.EveryRunIsBounded | include/ice/async.h:1073-1129 | the same for every run, with the number of coroutines for k |
| Generator.StepKeepsInv | include/ice/async.h:683-784 | every step keeps the turns of the two sides and is safe |
| Generator.AlwaysSafe | include/ice/async.h:631-636 | in every run all protocol assertions hold, each side is resumed only while suspended, the current value is not written while it may be read, and nothing touches the promise after its destruction |
| Generator.ObservesTheBody | include/ice/async.h:784-914 | in any run the observed values are a prefix of the values of the `co_yield`s, with a lag of at most one; a consumer that has been told the end has observed all of them and was given what the body threw, if it threw |
| Generator.EndArrives | include/ice/async.h:612-617 | once the body has returned or thrown and neither side has a step left, the consumer has been told the end, unless it has destroyed the generator |
| Generator.OneValuePerAdvance | include/ice/async.h:880-914 | each completed advance has brought exactly one more value or the end, and the iterator refers to the last value exactly if there is one and the end has not been told |
| Generator.NeverBothAsleep | include/ice/async.h:700-776 | producer and consumer are never suspended at once, and an advance under way always has a side that can move |
| Generator.StepDescends | include/ice/async.h:683-784 | every step of the protocol, of either side, lowers a rank, and nothing but the consumer's own calls raises it |
| Generator.AdvanceIsBounded | include/ice/async.h:736-776 | from an advance on, both sides together take at most 18 steps of the protocol until the consumer's next call, whatever the producer's body does |
| Generator.AdvanceCompletes | include/ice/async.h:736-776 | when no such step is left and the body is not running, the consumer has collected its result |
| Generator.ProtocolIsBounded | include/ice/async.h:683-784 | a whole run has at most 16 steps of the protocol per advance, and two more for the destructor |
| Generator.DestroyedExactlyOnce | include/ice/async.h:934-940 | the frame is destroyed at most once; after the destructor it has been, or the producer destroys it within two steps |
| Generator.ResumedOncePerSuspension | include/ice/async.h:688-776 | over any run, each suspension of the consumer is ended by exactly one resumption, and each of the producer by exactly one resumption or by the generator's destructor, or is still going on |
| Completion.StepKeepsInv | include/ice/async.h:315-346 | the two exchanges on a flag keep the handshake between every awaiter and its child, and every step is safe |
| Completion.EndsAsIfCalled | include/ice/async.h:503-530 | in every interleaving the outermost awaiter ends with the outcome of nested calls |
| Completion.InnermostFirst | include/ice/async.h:452-466 | an awaiter that has gone on finds every level below completed with its result stored |
| Completion.OutcomesCompose | include/ice/async.h:452-466 | in any run a level that has stored its outcome finds the one of its child stored, and its own is what its body makes of that; the innermost stores what it ended with |
| Completion.ContinuesOnce | include/ice/async.h:316-321 | each awaiter goes on exactly once, and only after its child has completed |
| Completion.SomeLevelMoves | include/ice/async.h:343-346 | a level that has started and not ended can move, or one below it can: no interleaving of registration and completion leaves the chain stuck |
| Completion.AlwaysCompletes | include/ice/async.h:452-466 | runs have at most 9(n + 1) steps, and one that cannot go on has delivered the outcome |
| Completion.UncaughtErrorArrives | include/ice/async.h:357-361 | in any run, an exception that some level stores and no level above catches is the stored result of the outermost awaiter once that has ended |
| Completion.StoredIsExpected | include/ice/async.h:315-346 | at every moment of any run, what a level has stored is the outcome of the nested calls from that level down |
| Context.ThreadAccounting | include/ice/context.h:30-31 | `state_` is twice the threads between the addition and the subtraction plus the stop bit, modulo 2^32, and exactly that below 2^31 threads |
| Context.StopIsForever | src/ice/context.cpp:183-188 | the stop bit never clears |
| Context.StopReportsIdle | src/ice/context.cpp:183-185 | the answer `stop` computes when it sets the bit is true if and only if the number of counted threads is a multiple of 2^31, so exactly for zero below that |
| Context.StopAnswers | src/ice/context.cpp:183-188 | whatever happens before it returns, `stop` returns that answer |
| Context.LeavesOnlyWhenStopped | src/ice/context.cpp:112-165 | a thread leaves its loop only if its wait has failed, or it has received an interrupt and a `stop` has been requested; one whose wait has failed does leave |
| Context.NotesInterrupts | src/ice/context.cpp:134-155 | in the loop over a batch, an interrupt is noted exactly if one was among the packets dealt with so far |
| Context.OnePacketPerStep | src/ice/context.cpp:134-155 | the loop over a batch deals with one packet at a time |
| Context.PacketsAreConserved | src/ice/context.cpp:170-188 | a packet posted is received once or still queued; on a completion port that holds for interrupts as well, and with one slot at most one is pending |
| Context.StopMiscounts | src/ice/context.cpp:183-188 | a run with 2^31 counted threads in which `stop` answers that there is none |
| Context.DestructorSafe | src/ice/context.cpp:89-93 | the destructor's assertion holds once every `run` has returned |
| Context.StopCascade | src/ice/context.cpp:112-188 | after a finished `stop` an interrupt is always pending, or held by a thread that will post another |
| Context.StopEmptiesTheContext | src/ice/context.cpp:95-188 | after a finished `stop`, once nothing new comes in, the run is finite and ends with every thread out of `run`, late ones included |
| Context.HandleBatch | src/ice/context.cpp:134-155 | resumes the event of every packet that has one, in the order of the packets and each once, and reports an interrupt exactly if the batch holds one |
| Event.OneWakeUpPerAwait | include/ice/event.h:49-61 | while suspended there is exactly one registration, packet or busy thread, else none; every await lets the coroutine go on exactly once |
| Event.WakeUpsAreConserved | include/ice/event.h:49-61 | in any run every registration is delivered once or outstanding, every delivery picked up once or queued, every packet picked up leads to one `resume`, and every `resume` that is not done to one more `suspend` |
| Event.SuspendedIsDriven | include/ice/event.h:54-61 | a suspended coroutine always has a step towards its wake-up |
| Send.SendConserves | src/ice/net/tcp/socket.cpp:268-285 | for any answers, sent plus remaining is the size, and the kernel was handed exactly that prefix, once and in order |
| Send.CompletedSend | src/ice/net/tcp/socket.cpp:268-285 | a send that ends without an error is complete if and only if no write returned zero or there was nothing to send |
| Send.AnswersDecide | src/ice/net/tcp/socket.cpp:268-310 | for any answers, the reported error is the code of the first failed `write` or registration, or none, and the reported count is what the writes have accepted |
| Send.WritesAgainAfterEachWakeUp | src/ice/net/tcp/socket.cpp:268-328 | a send writes, registers and is woken up, over and over, and ends with the first answer that is a failure, a zero write or the last byte accepted |
| Send.ShortSendExists | src/ice/net/tcp/socket.cpp:275-277 | a run that ends without an error and has sent nothing |
| Send.CountDetectsShortSend | src/main.cpp:20-23 | the returned count equals the size if and only if the whole data is on the wire |
| Send.SendOperation.constructor | include/ice/net/tcp/socket.h:120-122 | a new operation has everything left to send |
| Send.SendOperation.AwaitReady | src/ice/net/tcp/socket.cpp:268-285 | one `write`: moves the cursor and the counts, appends exactly the accepted bytes, and says whether the operation has ended |
| Send.SendOperation.Suspend | src/ice/net/tcp/socket.cpp:287-310 | registers once, or stores the error |
| Send.SendOperation.CoAwait | include/ice/event.h:49-52 | the first attempt is the step sequence write, register; the coroutine goes on at once exactly if it is not registered |
| Send.SendOperation.AwaitResume | include/ice/event.h:54-61 | a wake-up uses up the registration, retries, and either re-arms or lets the coroutine go on, once |
| Scanner.FeedConcat | src/main.cpp:31-51 | scanning depends on the bytes, not on how they were split |
| Scanner.ResponsesStarted | src/main.cpp:37-50 | the responses started are the half lengths of the runs of line feeds, after dropping carriage returns |
| Scanner.HandleInput | src/main.cpp:29-51 | the nested loops over the 1024-byte buffer start that many responses for any chunking up to the first empty chunk |
| ResponderRuns.StepKeepsInv | src/main.cpp:18-54 | every step of handler, responders, mutex and send keeps the order in which the lock is passed on |
| ResponderRuns.BackMeansAway | include/ice/async.h:66-68 | in any run the handler goes on behind the call of a responder only after that responder has suspended itself or ended |
| ResponderRuns.RunScans | src/main.cpp:32-51 | every delivered byte is scanned once and in order |
| ResponderRuns.NeverInterleaved | src/main.cpp:18-25 | for any answers of `write` and of the registration, errors included, the wire carries one prefix per response in request order, and only one responder can be part way |
| ResponderRuns.WholeResponsesThenOnePartial | src/main.cpp:18-25 | without socket errors the wire is whole responses and at most one part of the next response that has been started |
| ResponderRuns.FinalLockMeansAllSent | src/main.cpp:52-54 | when the handler holds the final lock the wire is exactly the responses to the requests received, all responders are out of the mutex, and destroying it is safe |
| ResponderProgress.StepDescends | src/main.cpp:18-54 | every step of handler, responders, sends and mutex uses up one unit of a measure, to which only received bytes, new responders, blocked writes and spurious failures add |
| ResponderProgress.RunIsBounded | src/main.cpp:27-54 | every run is finite: with responses of at most `size` bytes it has at most 16 + (13 + 2 size) steps per received byte + 3 per write that would block or is interrupted + 2 per spurious failure |
| ResponderProgress.NeverStuck | src/main.cpp:27-54 | until the final lock is held or a receive has failed, there is a step that needs no further input, no blocked write and no spurious failure |
| ResponderProgress.CallerMoves | src/main.cpp:42 | while the handler calls a responder, the step is the responder's own, or the return if it has suspended itself or ended |
| ResponderProgress.StopsOnlyAtTheEnd | src/main.cpp:52-54 | no such step is left if and only if the handler holds the final lock or its receive has failed, and then nothing at all is left |
| ResponderProgress.FinishedRunHasSentAll | src/main.cpp:18-54 | a run without errors that cannot go on has put exactly the responses to the received requests on the wire |
| ResponderFailure.ReceiveFails | src/main.cpp:33 | when `recv` fails, the assertions of the mutex destructor hold, with no `unlock` at work on the queue, if and only if every responder but the last has given up the lock |
| ResponderFailure.FailureIsHarmless | src/main.cpp:33 | when `recv` fails, no responder has a step left on the destroyed mutex and socket if and only if all are out of the mutex |
| ResponderFailure.FailureCanBreakAssertions | src/main.cpp:33 | a run in which `recv` fails with the first responder suspended in its send and the second in the queue of the mutex, so that the assertions of its destructor fail |

## Left out

- Weak memory: the atomics are sequentially consistent; acquire, release and relaxed orders are not told apart.
- Generator and `async<T>` objects: their promises are only ever used by two sides at once, so they appear as the fields of a step system and not as classes with methods.
- MutexHeap: the object methods run without interference; interference is the subject of `Mutex`, whose addresses are numbers.
- The synchronous `generator`, `basic_task`, `async_mutex_lock` moves and copies, and iterator comparison: simple by themselves.
- `async<T>`: awaiting one coroutine from several awaiters, `when_ready` and destruction of an unfinished coroutine; `starter::start` takes the steps of an awaiter and is not separate.
- Context: `schedule`, whose notes share the wake-up slot with `interrupt` on Linux and FreeBSD; thread-local storage; retries of an interrupted `epoll_wait`, which change nothing.
- Responder: what happens after a failed `recv` has destroyed mutex and socket; the model stops there. An error that the send throws in a responder is the same as a short count: its lock is released either way.
- Responder: only the POSIX `send` is modelled; the Windows completion of `send` and `send_some` adjusts its buffer differently.
- Responder: registering for reading and writing on one descriptor is assumed to be independent.
- `accept`, `connect`, `recv` and `send_some` operations, UDP and SSH: the same retry loop, or calls into foreign libraries.
- Error categories, options, endpoints, handles, `scope_exit` and the build files.
