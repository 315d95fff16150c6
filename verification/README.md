# Verified model of the RPC demo

This project models three parts of the RPC demo and proves what they promise, in every reachable
state and for every interleaving.

**The work-stealing pool and its futures** (`SharedState.dfy`, `PoolModel.dfy`, `PoolLedger.dfy`,
`PoolInvariant.dfy`, `PoolSteps.dfy`, `PoolGrowth.dfy`, `PoolTheorems.dfy`, `PoolWaiting.dfy`,
`PoolPlaces.dfy`, `PoolProgress.dfy`, `PoolExample.dfy`, `Pool.dfy`). A transition system in which
every thread is a call stack and one step is one atomic operation, one critical section or one
return. Posting, stealing, inline and re-posted continuations, nested API calls from callbacks,
exceptions in flight, waiting for the pool or for a future, 64-bit wrap-around and shutdown are all
steps of it. Double completion of a promise is possible in the step relation (it throws, as
`std::promise` does) and is proved unreachable. The proof keeps a ledger: the obligation to complete
a future is in exactly one place until it is completed or dropped. `SharedStates.SharedState` and
`Pools.Pool` are the objects themselves; each of their methods is proved to do exactly what one step
does to the fields.

**The type-erased callable** (`Callable.dfy`, `CallableTheorems.dfy`). Wrappers with a table and a
storage, inline and heap objects, and every move, assignment and destruction; single ownership and
independence of the representation over all operation sequences.

**The framed conversation and remote calls** (`Framing.dfy`, `Session.dfy`, `Conversation.dfy`,
`ConversationTheorems.dfy`, `Delivery.dfy`, `Rpc.dfy`, `Calls.dfy`, `ClientStub.dfy`, `CallTheorems.dfy`,
`CallRuns.dfy`). The framing
codec against a one-shot parser, the queued single writer and the alternating reader as a class, two
such sessions joined by byte pipes with arbitrary chunking, errors and closes, and on top of them any
number of concurrent callers with one response slot, timeouts and late answers. The call-safety
theorem goes through all layers, down to the bytes.

**The matrix service** (`Matrix.dfy`, `MatrixService.dfy`, `MatrixCalls.dfy`). The i-k-j loop on machine
integers, associativity of the product, the iterated product as left * right^times, the growth bound
that rules out overflow, the transport of the arguments through the request message, and the three
registered methods as an instance of the remote calls: an accepted remote `calc_matrix` returned
left * right^times.

A state is called reachable when every predicate that holds in the initial states and is kept by every
step holds in it; `PoolSteps.ReachableByRun` shows that these are exactly the states in which a finite
run ends.

What the code does where a reader may expect something else:

- A second continuation registered before completion is dropped, and the future returned for it never
  completes. `PoolExample.SecondThenNeverCompletes` gives a run to a state in which `wait` returns with
  that future incomplete, and shows that it stays so in every continuation of the run.
  `PoolTheorems.RegistrationDecides` and `DroppedIff` say when a registration is dropped,
  `PoolTheorems.QuiescentIff` exactly when a returned future is completed at the time `wait` returns, and
  `PoolTheorems.WaitCoversChain` that a chain in which each future got one `then` always is.
- A task that waits for the pool, or for a future whose task only its own worker could run, waits for
  ever: `PoolWaiting.WaitInsideTaskForever`, `GetInsideTaskForever` and the run
  `PoolExample.GetInsideTaskDeadlocks`.
- An answer that arrives late makes the next call fail: `CallRuns.LateAnswerFailsNextCall`.
- A message of 2^32 bytes or more is announced by its size modulo 2^32. `Framing.FaithfulIff` gives the
  exact condition under which the receiver reads only what was posted, and
  `Framing.OversizeMisframes` a message for which it does not.
- Message ids repeat after 2^64 calls (`CallTheorems.IdsCollideIff`); call safety is stated for at most
  2^64 calls.

Parameters of the model: the user's callbacks (pure functions of their argument, returning a value or
an exception; values are integers), the serialization functions with the round-trip hypothesis
`Rpc.RoundTrips` (`MatrixCalls.Faithful` message by message), and the business functions. `Outstanding(s) < WORD` says that fewer than 2^64 tasks
are outstanding, which the address space implies.

## Model

| member | source | states |
|---|---|---|
| SharedStates.SharedState.SetValue | rpc/threadpool/shared_state.hpp:39-51 | the critical section stores the value once, marks completion and hands out the stored continuation; on a satisfied promise it throws and changes nothing |
| SharedStates.SharedState.SetException | rpc/threadpool/shared_state.hpp:67-79 | the same for an exception |
| SharedStates.SharedState.SetContinuation | rpc/threadpool/shared_state.hpp:82-109 | ignored if one was stored, run now if completed, stored otherwise |
| Pools.Pool.PostDetach | rpc/threadpool/thpoolv5.hpp:52-65 | uninterrupted, it is three consecutive steps of the transition system; the task goes to the front of one deque, the others are unchanged, and it is counted once |
| Pools.Pool.ChooseVictim | rpc/threadpool/thpoolv5.hpp:56 | the ticket modulo the number of workers, as in the model's step |
| Pools.Pool.CountTask | rpc/threadpool/thpoolv5.hpp:58 | the atomic increment is the model's step |
| Pools.Pool.PushFront | rpc/threadpool/thpoolv5.hpp:60-62 | the push under the victim's lock is the model's step |
| Pools.Pool.TakeOwn | rpc/threadpool/thpoolv5.hpp:149-155 | the owner's critical section is the model's step and returns the front |
| Pools.Pool.ChooseSteal | rpc/threadpool/thpoolv5.hpp:166-170 | the victim index is the model's step and valid |
| Pools.Pool.Steal | rpc/threadpool/thpoolv5.hpp:172-177 | the thief's critical section is the model's step and returns the back |
| Pools.Pool.TakeTask | rpc/threadpool/thpoolv5.hpp:148-185 | one search removes nothing but the task it returns, prefers the own front, looks at another worker's deque if its own is empty, and fails only if both were empty |
| Pools.Pool.FinishTask | rpc/threadpool/thpoolv5.hpp:158 | the atomic decrement is the model's step |
| Pools.Pool.SetShutdown | rpc/threadpool/thpoolv5.hpp:131 | storing the flag is the model's step |
| PoolSteps.StepKeepsInv | rpc/threadpool/thpoolv5.hpp:142-194 | every step of every thread keeps the whole invariant: ledger, futures, frames, deque order, counter |
| PoolSteps.ReachableInv | rpc/threadpool/thpoolv5.hpp:29-37 | the invariant holds in every state reachable from a constructed pool |
| PoolSteps.ReachableByRun | rpc/threadpool/thpoolv5.hpp:142-194 | the reachable states are exactly the last states of finite runs of the constructed pool |
| PoolExample.Constructed | rpc/threadpool/thpoolv5.hpp:29-37 | pools of any positive number of workers beside any number of clients start with nothing counted |
| PoolTheorems.WorkAccounting | rpc/threadpool/thpoolv5.hpp:111-117 | `unfinished_` is always calls counted and not pushed, plus queue lengths, plus workers between taking and decrementing, modulo 2^64 |
| PoolTheorems.NoUnderflow | rpc/threadpool/thpoolv5.hpp:157-158 | the decrement never underflows |
| PoolTheorems.SleepersSeeWork | rpc/threadpool/thpoolv5.hpp:188-192 | the sleepers' predicate holds whenever any deque is non-empty |
| PoolTheorems.TaskInOnePlace | rpc/threadpool/thpoolv5.hpp:51-65 | every task, posted or re-posted as a continuation, is in exactly one of a posting call, a deque, a thread's hands, a predecessor's record, an undecided registration, done, dropped; and runs at most once |
| PoolTheorems.SleeperWakesIff | rpc/threadpool/thpoolv5.hpp:188-192 | a sleeping worker may go on if and only if there is counted work or the flag is set |
| PoolTheorems.NoDoubleCompletion | rpc/threadpool/thpoolv5.hpp:90-108 | a promise about to be satisfied is always empty, so no step but a detached body's own throw puts an exception in flight |
| PoolGrowth.NoExceptionEscapes | rpc/threadpool/thpoolv5.hpp:238-255 | an exception leaves a frame if and only if it is a detached task's body that throws, whatever threw before, and the process ends if and only if one is in flight |
| PoolExample.DetachedThrowEndsProcess | rpc/threadpool/thpoolv5.hpp:51-65 | a run in which a detached task's exception ends the process |
| PoolTheorems.ChainMeaning | rpc/threadpool/thpoolv5.hpp:221-273 | under every schedule a completed end of a chain holds the fold of its callbacks in the result-or-exception monad |
| PoolTheorems.NoCallAfterThrow | rpc/threadpool/thpoolv5.hpp:238-255 | after a throwing link no later callback is entered and its exception arrives unchanged |
| PoolTheorems.ThrowDecides | rpc/threadpool/thpoolv5.hpp:252-255 | the fold of a chain with a throwing link is that link's exception |
| PoolTheorems.ContinuationRace | rpc/threadpool/shared_state.hpp:82-109 | a continuation stored before completion excludes all others; otherwise all decided ones came after completion; none runs twice or early |
| PoolTheorems.RegistrationDecides | rpc/threadpool/shared_state.hpp:82-109 | a registration is dropped, run at once or stored exactly by the two flags its predecessor had before the step |
| PoolProgress.PostingCalls | rpc/threadpool/thpoolv5.hpp:51-65 | user code may always post, and chain on any future it was given, inline or not, also after completion and after shutdown |
| PoolProgress.PostReturns | rpc/threadpool/thpoolv5.hpp:79-121 | a post left to itself ends with the task counted, newest in one deque, and its future returned |
| PoolPlaces.CompletionReposts | rpc/threadpool/thpoolv5.hpp:257-270 | completing a future starts a `then_inline` continuation at once, and posts a `then` continuation: ticket, count and push are the next three steps of the completing thread, before its task goes on and is discounted |
| PoolPlaces.RegistrationReposts | rpc/threadpool/thpoolv5.hpp:257-270 | registering on a completed future makes the same choice in the registering thread |
| PoolPlaces.WhereItRuns | rpc/threadpool/thpoolv5.hpp:257-270 | a posted task and a `then` continuation always run as the outermost call of a worker, a `then_inline` continuation always inside another call |
| PoolPlaces.InlineIsNeverQueued | rpc/threadpool/thpoolv5.hpp:257-259 | nothing chained by `then_inline` is ever in a deque |
| PoolTheorems.DroppedIff | rpc/threadpool/shared_state.hpp:89-92 | a decided registration was dropped if and only if its predecessor stored another continuation |
| PoolTheorems.Quiescence | rpc/threadpool/thpoolv5.hpp:123-128 | when the counter reads 0 nothing is counted or queued, and a returned future is completed if and only if no registration on its chain was dropped, and then holds its meaning, its callback run exactly when due |
| PoolTheorems.QuiescentCompleted | rpc/threadpool/thpoolv5.hpp:267-269 | re-posted links are counted before their parent is discounted, so no link is missed |
| PoolTheorems.QuiescentIff | rpc/threadpool/thpoolv5.hpp:123-128 | when the counter reads 0 a returned future is completed if and only if no future on its chain had stored a different continuation |
| PoolTheorems.SoleAccepted | rpc/threadpool/shared_state.hpp:89-92 | a future on whose chain each `then` was the only one on its predecessor is never dropped |
| PoolTheorems.WaitCoversChain | rpc/threadpool/thpoolv5.hpp:123-128 | when the counter reads 0, a chain whose futures got one `then` each is complete throughout and its end holds the fold of the callbacks |
| PoolProgress.WaitReturnsIff | rpc/threadpool/thpoolv5.hpp:123-128 | `wait` can return if and only if no counted work is left, and returning changes nothing else |
| PoolProgress.WaitReturnsAfterChain | rpc/threadpool/thpoolv5.hpp:123-128 | at the step with which `wait` returns, a chain whose futures got one `then` each is complete and folded |
| PoolProgress.WaitingCalls | rpc/threadpool/thpoolv5.hpp:123-139 | a call to `wait`, `get` or `shutdown` is always possible from user code; the first two give control back exactly when the pool is idle or the future completed |
| PoolGrowth.StepGrows | rpc/threadpool/shared_state.hpp:39-109 | no step takes back an outcome, a decision, a stored continuation or a returned future |
| PoolGrowth.CompletedForever | rpc/threadpool/shared_state.hpp:39-51 | a completed future keeps its outcome in every continuation of the run |
| PoolGrowth.DroppedForever | rpc/threadpool/shared_state.hpp:89-92 | a dropped continuation is never entered and its future never completed, in every continuation of the run |
| PoolExample.SecondThenIsDropped | rpc/threadpool/shared_state.hpp:89-92 | a run in which the registration of a second `then_inline` is dropped and its future returned |
| PoolExample.SecondThenNeverCompletes | rpc/threadpool/thpoolv5.hpp:123-128 | that run continued to a counter of 0: the task and the first continuation are complete, the second future is not, and never will be |
| PoolTheorems.ContinuationNeverBlocks | rpc/threadpool/thpoolv5.hpp:235-241 | a started continuation's `get()` never waits |
| PoolTheorems.WorkersNeverStuck | rpc/threadpool/thpoolv5.hpp:142-194 | while counted work exists every worker can take its next step, unless its task is itself inside `wait`, `shutdown` or some future's `get` |
| PoolTheorems.WaitInsideTaskNeverReturns | rpc/threadpool/thpoolv5.hpp:123-128 | `wait` called from inside a task is blocked |
| PoolWaiting.WaitInsideTaskForever | rpc/threadpool/thpoolv5.hpp:123-128 | and it stays so in every continuation of the run |
| PoolWaiting.GetYieldsMeaning | rpc/threadpool/futurev5.hpp:33-38 | a `get` that returns yields the outcome the future must have |
| PoolProgress.GetReturnsIff | rpc/threadpool/futurev5.hpp:33-38 | `get` ends if and only if the future is completed, by a value or an exception |
| PoolWaiting.GetInsideTaskForever | rpc/threadpool/thpoolv5.hpp:66-74 | a single worker whose task waits for a future queued in its own deque never continues, and neither future's task completes |
| PoolExample.GetInsideTaskDeadlocks | rpc/threadpool/thpoolv5.hpp:66-74 | the run of the source's own warning: a task posts another and calls `get`, and neither is ever complete |
| PoolWaiting.ShutdownReturns | rpc/threadpool/thpoolv5.hpp:130-139 | when `shutdown` returns to a client every worker has left its loop with no task in hand, for good |
| PoolProgress.JoinReturnsIff | rpc/threadpool/thpoolv5.hpp:134-138 | each join ends if and only if that worker has exited, and the loop is over after the last worker or at the caller's own thread |
| PoolTheorems.ShutdownBound | rpc/threadpool/thpoolv5.hpp:130-146 | after the flag a worker starts at most one more task and finishes at most one more |
| PoolProgress.ShutdownBoundOverRuns | rpc/threadpool/thpoolv5.hpp:130-146 | counted over any continuation of a run in which the flag is set, a worker takes at most one more task and ends at most one more |
| PoolTheorems.OwnerTakesNewest | rpc/threadpool/thpoolv5.hpp:152-157 | the owner starts the newest remaining task of its deque |
| PoolTheorems.ThiefTakesOldest | rpc/threadpool/thpoolv5.hpp:174-179 | a thief starts the oldest remaining task of its victim |
| PoolProgress.IdleWorkerSteals | rpc/threadpool/thpoolv5.hpp:162-185 | a worker whose deque is empty reaches another worker's deque in two steps, and in the third starts the oldest task there |
| PoolProgress.IdleWorkerFindsWork | rpc/threadpool/thpoolv5.hpp:142-194 | while any deque holds a task, an idle worker left to itself starts one after finitely many own steps |
| PoolTheorems.VictimIsAnother | rpc/threadpool/thpoolv5.hpp:166-170 | a thief never picks itself |
| Callables.Memory.DestroyAt | rpc/threadpool/packagev3.hpp:188-193 | destroys the held object, if any, and empties the wrapper |
| Callables.Memory.MoveInto | rpc/threadpool/packagev3.hpp:118-130 | heap callables move by pointer, inline ones by construction and destruction |
| Callables.Memory.AssignFrom | rpc/threadpool/packagev3.hpp:202-207 | destroy, then move |
| Callables.Memory.Perform | rpc/threadpool/packagev3.hpp:260-317 | every public operation is the model's step, with its outcome |
| Callables.DoKeepsOwned | rpc/threadpool/packagev3.hpp:188-222 | every operation keeps single ownership |
| CallableTheorems.OwnershipOverRuns | rpc/threadpool/packagev3.hpp:289-312 | after any operations, constructions minus destructions is the number of non-empty wrappers and no object is shared |
| CallableTheorems.AllDestroyedOnce | rpc/threadpool/packagev3.hpp:310-312 | when all wrappers are empty every callable has been destroyed exactly once |
| CallableTheorems.RefinesIdeal | rpc/threadpool/packagev3.hpp:195-234 | every operation refines the one on plain optional callables, an empty one giving the error outcome |
| CallableTheorems.RepresentationIndependence | rpc/threadpool/packagev3.hpp:155-171 | runs differing only in inline or heap storage have the same outcomes and callable states |
| CallableTheorems.PerformsIff | rpc/threadpool/packagev3.hpp:260-317 | an operation is refused only for naming a wrapper that does not exist |
| CallableTheorems.CallableLives | rpc/threadpool/packagev3.hpp:188-234 | a callable of either kind, moved three ways, keeps its state from call to call; emptied wrappers give the error outcome; all its objects are destroyed once |
| Framing.LengthOfHeader | rpc/src/session.cpp:133-139 | decoding the written header gives the size modulo 2^32 |
| Framing.HeaderOfLength | rpc/src/session.cpp:69-73 | every four bytes are the header of the length they decode to |
| Framing.EveryStream | rpc/src/session.cpp:133-142 | every byte string is the beginning of some sequence of frames |
| ConversationTheorems.AnyBytesAreSent | rpc/src/session.cpp:58-121 | every byte string is exactly what some reachable conversation has sent, so the reader's theorems cover arbitrary bytes |
| Framing.SmallIsFramed | rpc/src/session.cpp:133 | no size below 2^32 is misread |
| Framing.SizeLimit | rpc/src/session.cpp:78-84 | sizes of 1 byte to 10 MiB are read back whole, any other below 2^32 stops the reader |
| Framing.ParseSound | rpc/src/session.cpp:58-121 | the one-shot parser decomposes the stream into valid frames and a rest |
| Framing.ParseLongest | rpc/src/session.cpp:58-121 | no decomposition has more valid frames |
| Framing.FaithfulIff | rpc/src/session.cpp:133-142 | the receiver reads only posted messages, in order, if and only if the first badly sized one does not look valid after truncation |
| Framing.OversizeMisframes | rpc/src/session.cpp:133 | a body of 2^32 + 1 bytes is read as a one-byte message |
| Sessions.Session.Enqueue | rpc/src/session.cpp:26-37 | queues the message and starts a write exactly when none was in progress |
| Sessions.Session.StartWrite | rpc/src/session.cpp:123-163 | requests the front's frame, or an error on a closed socket |
| Sessions.Session.OnWritten | rpc/src/session.cpp:146-163 | pops and continues on success, closes on error |
| Sessions.Session.OnHeader | rpc/src/session.cpp:64-93 | reads the body for lengths 1..10 MiB, closes otherwise |
| Sessions.Session.OnBody | rpc/src/session.cpp:102-120 | hands the buffer over and reads the next header |
| Sessions.Session.OnReadError | rpc/src/session.cpp:86-92 | closes and stops reading |
| Sessions.Session.Close | rpc/src/session.cpp:166-170 | closes the socket and changes nothing else |
| ConversationTheorems.StepKeepsInv | rpc/src/session.cpp:26-164 | every post, chunk, completion, error, read and close keeps the writer and reader invariants of both directions |
| ConversationTheorems.ReachableInv | rpc/src/session.cpp:26-164 | writer and reader invariants of both directions hold in every reachable state |
| ConversationTheorems.WriterShape | rpc/src/session.cpp:123-164 | a write is outstanding exactly when the queue is non-empty until an error; the bytes sent are popped frames and a prefix of the front's |
| ConversationTheorems.SilentForever | rpc/src/session.cpp:156-162 | after a write error no byte is ever written again, whatever follows |
| ConversationTheorems.ReaderRefinesParser | rpc/src/session.cpp:58-121 | for every chunking, delivered messages are the one-shot parse of the bytes consumed, and that parse meets a bad length exactly when the reader has stopped for it or its header's handler is due |
| ConversationTheorems.StoppedForever | rpc/src/session.cpp:78-84 | a stopped reader's socket is closed, and whatever follows it delivers and consumes nothing more |
| ConversationTheorems.DeliveredIsPrefix | rpc/src/session.cpp:26-164 | end to end, delivered messages are a prefix of the posted ones |
| ConversationTheorems.DrainedIsDelivered | rpc/src/session.cpp:26-164 | once queue, wire and read buffer are drained, everything posted was delivered |
| Delivery.AnyMessagesAreDelivered | rpc/src/session.cpp:26-164 | every list of valid messages is posted and delivered, whole and in order, in some run, in either direction |
| Delivery.NetworkIsFree | rpc/src/session.cpp:58-164 | chunks of any size may arrive or be sent at any moment, and any read or write may fail, closing the socket |
| Delivery.ClosedWriteFails | rpc/src/session.cpp:142-163 | a message posted on a closed idle socket fails and stays queued |
| Rpc.HandleRequest | rpc/detail/server_stub.hpp:26-42 | writes exactly one response to the request's session, the one `Rpc.AnswerByCase` describes |
| Rpc.AnswerEchoes | rpc/detail/server_stub.hpp:44-111 | every response carries the request's id and type, or 0 and unknown if unparsable |
| Rpc.OkIff | rpc/detail/server_stub.hpp:61-98 | OK exactly when the method is known, the body parses and the function returns |
| Rpc.AnswerByCase | rpc/detail/server_stub.hpp:26-111 | status, body and text of the answer to every frame: unparsable, unknown method, unparsable body, returned, threw, threw something else |
| Rpc.OwnAnswer | rpc/detail/client_stub.hpp:40-61 | if both can be delivered, the answer to one's own request is accepted with the function's value exactly when it returned, and its error text is passed on otherwise |
| Rpc.AcceptedAnswer | rpc/detail/client_stub.hpp:45-61 | an accepted answer has the call's id and type and the value of the request it answers |
| Rpc.AcceptedIff | rpc/detail/client_stub.hpp:40-61 | a response is accepted if and only if it parses, has the call's id and type, is OK and carries a result |
| Rpc.RefusedBecause | rpc/detail/client_stub.hpp:45-59 | which of the checks, in their order, refuses any other response, and with what text |
| Rpc.GarbageAnswerRejected | rpc/detail/server_stub.hpp:30-38 | a deliverable answer to an unparsable request is accepted by no call |
| ClientStubs.ClientStub.FetchId | rpc/detail/client_stub.hpp:27 | returns the old id and advances it modulo 2^64, as in the model's step |
| ClientStubs.ClientStub.ArmSlot | rpc/src/network.cpp:155-159 | clears the response slot, as in the model's step |
| ClientStubs.ClientStub.OnMessage | rpc/src/network.cpp:115-120 | the last message received fills the slot, as in the model's step |
| ClientStubs.ClientStub.TryWake | rpc/src/network.cpp:163-169 | copies the slot if it is set, and leaves it set, as in the model's step |
| ClientStubs.ClientStub.SendRequest | rpc/detail/client_stub.hpp:24-38 | a fresh id, the slot cleared and the request written, or nothing if closed, following the model's steps |
| ClientStubs.AcceptResponse | rpc/detail/client_stub.hpp:40-61 | the acceptance checks in their order |
| CallTheorems.StepKeepsInv | rpc/src/network.cpp:115-170 | every call, wake-up, timeout, delivery and answer keeps the invariant of the call protocol |
| CallTheorems.ReachableInv | rpc/src/network.cpp:149-170 | ids, explained messages, replies and slot contents, in every reachable state |
| CallTheorems.IdsCollideIff | rpc/detail/client_stub.hpp:27 | two calls share an id exactly when a multiple of 2^64 calls lies between them |
| CallTheorems.RepliesInOrder | rpc/detail/server_stub.hpp:26-42 | one reply per delivered request, in arrival order |
| CallTheorems.CallSafety | rpc/detail/client_stub.hpp:20-62 | a value returned by a call is the server function's result for that very request, over all runs of at most 2^64 calls |
| CallTheorems.CallSafetyUnderLimit | rpc/detail/client_stub.hpp:20-62 | the same with the hypothesis on message sizes discharged from the serializer's limit |
| CallTheorems.SlotHoldsLast | rpc/src/network.cpp:115-120 | the slot holds the last message received, if one came since it was cleared |
| CallRuns.CallCompletes | rpc/detail/client_stub.hpp:20-62 | from any moment with nothing under way a call can run to its end, and then returns the function's value or raises its error |
| CallRuns.FirstCallReturns | rpc/detail/client_stub.hpp:20-62 | the first call of a fresh client can return its value |
| CallRuns.CallCanFinish | rpc/src/network.cpp:149-170 | a call can always finish by its own steps, whatever the network does; a waiting one by timing out |
| CallRuns.OthersAreFree | rpc/src/network.cpp:149-176 | a call is refused exactly when it finds the session closed, a waiting one woken exactly by a set slot; new calls, timeouts, other senders and the network are constrained by nothing else |
| CallRuns.LateAnswerFailsNextCall | rpc/src/network.cpp:115-120 | a run in which the answer to a call that timed out makes the next call fail on the id |
| Matrices.ProductAssociative | rpc/method/operation.cpp:73-75 | the product is associative, by exchanging double sums |
| Matrices.IterateIsPower | rpc/method/operation.cpp:71-76 | the iterated product is left times the independently defined power |
| Matrices.IterateAdds | rpc/method/operation.cpp:73-75 | s steps and then t steps are s + t steps |
| Matrices.PartialSumBounded | rpc/method/operation.cpp:57-63 | every partial sum of step t stays within a * (n*b)^t |
| MatrixService.Multiply | rpc/method/operation.cpp:53-63 | the triple loop on 32-bit integers computes the product |
| MatrixService.CalcMatrix | rpc/method/operation.cpp:65-77 | left for times <= 0, the iterated product otherwise |
| MatrixService.CalcMatrixIsPower | rpc/method/operation.cpp:68-76 | for square inputs and times >= 0 the result is left * right^times |
| MatrixService.GrowthBoundSuffices | rpc/method/operation.cpp:57-76 | no int overflows when a * (n*b)^times <= 2^31 - 1 |
| MatrixService.FillProtoMatrix | rpc/method/operation.cpp:10-19 | appends the rows unchanged |
| MatrixService.ReadProtoMatrix | rpc/method/operation.cpp:21-38 | reads the rows unchanged |
| MatrixService.TimesSurvives | rpc/method/operation.cpp:164-198 | every 32-bit signed times survives the unsigned field |
| MatrixService.MakeRequest | rpc/method/operation.cpp:157-166 | the message carries both matrices and times |
| MatrixService.Invoke | rpc/method/operation.cpp:194-199 | computes on what the message carries; times <= 0 gives back the left matrix |
| MatrixService.MakeResponse | rpc/method/operation.cpp:169-173 | the message carries the result |
| MatrixService.RemoteCalc | rpc/method/operation.cpp:157-199 | request, invocation and response together return left * right^times |
| MatrixCalls.OperationsRoundTrip | rpc/method/operation.cpp:80-199 | the methods' arguments and results survive serialization on one side and parsing on the other |
| MatrixCalls.RemoteCallCorrect | rpc/detail/client_stub.hpp:20-62 | over all runs an accepted remote `add`, `div` or `calc_matrix` returned the right value for its own arguments, where the function is defined |
| MatrixCalls.RemotePower | rpc/method/operation.cpp:65-77 | over all runs an accepted remote `calc_matrix` on square matrices, without overflow and within the serializer's limit, returned left * right^times |
| MatrixCalls.RemotePowerReturns | rpc/method/operation.cpp:65-77 | some run of a fresh client does return left * right^times |
| MatrixCalls.RemoteNumberReturns | rpc/method/operation.cpp:44-50 | some run returns the sum, or the quotient truncated towards zero |

## Left out

- Sockets, resolver, acceptor, strands and threads of the libraries: replaced by a reliable byte pipe with arbitrary chunking, handlers as atomic steps, and nondeterministic errors and closes.
- Protobuf encoding: a parameter with a round-trip hypothesis, for envelopes of a deliverable size, arguments and results within the serializer's 2 GiB limit (`Rpc.Serializable`) and error texts that are valid UTF-8; arbitrary bytes may still fail to parse.
- Wake-ups of condition variables: a waiting thread may continue whenever its predicate holds; that it eventually does is not claimed, because the notifications are sent without the waiter's mutex.
- Memory orders weaker than sequential consistency, and the window in which the pool's constructor is still adding workers.
- Allocation failure, and move constructors of callables that throw.
- `Future::wait` called by users, which waits as `get` does, and futures without a state.
- Exceptions thrown into a callback by the pool itself: a `join` on the caller's own thread ends `shutdown` at once, and a `get` may rethrow; the callback is assumed to handle both, since its outcome is a function of its argument.
- The pool's destructor: joining is modelled in `shutdown` only.
- Payload types in the pool: values travelling down a chain are integers; void tasks carry a fixed value.
- RepliesInOrder: assumes that the business function returns or throws on every delivered request; a `calc_matrix` request that is not `MatrixService.Computable` (a right matrix smaller than the left indexes out of bounds, rpc/method/operation.cpp:61), an overflowing `add` and a division by 0 are undefined in the program. `MatrixCalls.Defined` names these domains.
- Raw storage layout, alignment and the `package::make` promise wrapper.
- Session registry clean-up, logging, `remote_endpoint`, the `Demo` and `test` programs.
- Messages other users of a client's connection send: allowed, if they do not parse as a request.
