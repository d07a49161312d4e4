# Verification of the Paho MQTT C++ client and of the backup service built on it

A Dafny model of the parts of the library that threads share, of the backup application that uses
it, and of two sample programs, with proofs about all their runs.

The parts that change state in place are classes whose methods follow the C++ functions, one
critical section per call, with contracts that state the whole new state. The parts that threads
or machines interleave are state machines: `Enabled` says when a step can be taken, `Apply` what it
does, and the theorems hold for every sequence of steps, any number of threads or clients, and any
data. `dafny verify dfyconfig.toml` checks everything.

## What is modelled

**The blocking queue** (`ThreadQueue`, `QueueThreads`, `QueueWakeups`). A bounded queue with one
mutex and two condition variables. `put` signals only when the queue was empty and `get` only when
the size becomes one less than the capacity (computed in `size_t`, so it wraps at capacity zero);
each signal is sent after the unlock, and a condition variable may also wake a thread for no reason
or on a time-out. The machine refines an atomic first-in first-out queue. Whether a wake-up can be
lost is settled by two if-and-only-if theorems, with runs that lose one wherever the condition
fails.

**The publishing speed test** (`SpeedTest`, `SpeedTestEnds`) is a complete program over that queue,
with the exceptions of `publish` and `wait`. Every step without a spurious wake-up makes a measure
fall, so every run comes to a stop. Three things can keep it from the end of the program. A refused
publish: the future of the waiting thread is declared inside the `try` block, so its destructor
waits for a thread that waits for a null token which only the handler would put. With a bounded
queue, a failed message. And a fast run: the rate is computed by dividing by the whole milliseconds
that publishing took, and when there are none the process is killed (so almost surely for no
messages at all). All three are in one theorem, `FinishesExactly`, which is an if-and-only-if.

**The consumer queue of the client** (`Consuming`): what consumers are handed in one session.

**Tokens and the asynchronous client** (`Tokens`, `AsyncClient`, `AsyncThreads`, `AsyncLedger`,
`AsyncCalls`, `AsyncDelivery`, `AsyncMutexes`, `AsyncWaits`, `AsyncPolicies`, `AsyncOverlap`,
`AsyncOverlapRuns`, `AsyncAttempts`, `AsyncAttemptRuns`). A thread is a stack of running functions,
so a listener or `delivery_complete` may call back into the client. The C library is the
environment: it accepts or refuses each submission, calls back exactly once for each that it
accepted, and holds raw addresses meanwhile. Any thread may call any function at any moment, so
calls of `connect` and `reconnect` may overlap; `connect` reads `connTok_` anew each time that it
uses its token, and each of these readings is a step of its own. The results on mutexes, waiting and
delivery hold for all these runs. The results on the pending lists hold for all tokens that
`connect` has not made; for the others the exact conditions are proved. So is the exact condition
under which `wait` never reports an earlier attempt: it excludes a `reconnect` while another
completion of the token is on the way, and no more, so in particular not one after `wait` has
returned or from the token's own listener (`CompleteMayReconnect`). Things the code does that a
reader might not expect, all kept as they are:

- `delivery_complete` is also called for refused sends and failed deliveries, although
  mqtt/callback.h:72-77 documents only completed delivery.
- `check_ret` throws for every reason code above 2, although section 2.4 of MQTT Version 5.0 treats
  codes below 0x80 as success.
- `reset` does not clear the connect response, so `get_connect_response` can return the response of
  an earlier attempt.
- `complete_` is set before the listener runs, so a thread that was not yet asleep can return from
  `wait` while the listener is still running. A thread that is asleep cannot.
- A refused `connect` removes the token in `connTok_`, which after another `connect` is not its own.
  `OwnedExactly` and `AccountExactly` say which overlaps of `connect` are harmless; wherever one is
  not, there is a run in which the library holds the address of a token to which no pointer is left.
  They take each access to `connTok_` to be atomic, which the code does not make sure of either.
- A `reconnect` while the token is in flight, or two at once, or two `connect` calls of which one
  has still to hand its token over, can complete one token twice, and then `wait` can throw for the
  earlier failure although the later attempt succeeded (`WaitExactly`).

**The backup service** (`Announcement`, `BackupProtocol`, `BackupRegistration`, `BackupKeyHandover`,
`BackupStaleSlots`, `BackupOutcome`, `BackupForgotten`, `BackupSettles`, `BackupReplies`,
`BackupWires`, `BackupAcks`, `BackupRest`, `BackupApp`, `BackupTurns`); see the next section. Two
weaknesses of the design come out as exact conditions: what is left in a client's slot from before
can cost it the key, and of several clients that announce themselves before the server comes to the
public topic only the last one is ever served. For the rest it does what it is for: unless somebody
types it comes to rest in a bounded number of steps, and then everybody whom the server has heard of
has the key, and every request that reached the server has been answered.

**The argument list of the RPC samples** (`RpcArguments`, `RpcValues`): the parser accepts exactly a
grammar, and reads back what the printer prints, for all decimal numbers with fractions and
exponents, and whatever the rounding to `double` and its range.

**The in-memory persistence** (`StringCollections`, `Persistence`, `PersistenceCalls`): the C
callbacks over the C++ store act as calls on a plain map.

## The backup service: what is assumed

- The broker is reliable and keeps the order of each connection. It retains one message per topic
  (section 3.3.1.3 of MQTT Version 5.0 and of MQTT Version 3.1.1). The server subscribes with No
  Local (section 3.8.3.1 of MQTT Version 5.0), and a retained message that the server itself
  published is not sent to it either. The client subscribes without No Local, as
  appFiles/_appClient.cpp:94 does, although appFiles/README.txt:18 speaks of both.
- The clients have distinct addresses that `inet_pton` accepts, not empty and without blanks; the
  name of the public topic is not such an address.
- The key contains "ssh-rsa". What the broker retains on the public topic at the start, if
  anything, is an announcement.
- What is retained at the start on a client's own topic is neither a request nor a foreign key.
  Only the theorems about the key need this, and `BackupStaleSlots.HandoverSafeExactly` proves that
  the hand-over is safe exactly then.
- No connection is lost (the server exits when one is, appFiles/_appServer.cpp:42-45), no call
  throws, and messages that arrive before `start_consuming` are kept.
- A handler thread reads `m_msgPtr` before the main loop overwrites it. The code does not enforce
  this, and the comment at appFiles/_appServer.cpp:91 is wrong about it.

## Model

| member | source | states |
|---|---|---|
| `ThreadQueue.ThreadQueue.Unbounded` | mqtt/thread_queue.h:102 | the default queue is empty and bounded only by `size_t` |
| `ThreadQueue.ThreadQueue.constructor` | mqtt/thread_queue.h:108 | a capacity below one becomes one |
| `ThreadQueue.ThreadQueue.SetCapacity` | mqtt/thread_queue.h:132-135 | only the capacity changes: the items stay, even when they are too many |
| `ThreadQueue.ThreadQueue.Size` | mqtt/thread_queue.h:140-143 | the number of items held |
| `ThreadQueue.ThreadQueue.Put` | mqtt/thread_queue.h:150-160 | waits exactly when the queue is at or above capacity, else appends; owes a signal exactly when the queue was empty |
| `ThreadQueue.ThreadQueue.TryPut` | mqtt/thread_queue.h:167-178 | refuses exactly when `put` would wait, and otherwise does the same |
| `ThreadQueue.ThreadQueue.Get` | mqtt/thread_queue.h:247-278 | takes the oldest item; owes a signal exactly when the size becomes one less than the capacity, in unsigned arithmetic |
| `QueueThreads.RefinesAtomicFifo` | mqtt/thread_queue.h:150-278 | every run of any number of threads is a legal history of an atomic queue, from its contents before to its contents after |
| `QueueThreads.StepKeepsFifo` | mqtt/thread_queue.h:150-278 | after every step, values taken followed by values held are the values put; the size does not grow at or above capacity |
| `QueueThreads.FifoAlways` | mqtt/thread_queue.h:150-278 | the same over every run; the histories only grow |
| `QueueThreads.PeakIsMaxCapacitySet` | mqtt/thread_queue.h:132-135 | the bound kept by the machine is the largest capacity ever set |
| `QueueThreads.QueueIsBoundedFifo` | mqtt/thread_queue.h:132-278 | from an empty queue: conservation in order, and the size never exceeds the largest capacity ever set |
| `QueueThreads.PutEndsWithItsValue` | mqtt/thread_queue.h:150-160 | in every run a `put` that is over has added its own value, at a moment when there was room |
| `QueueThreads.GetEndsWithTheOldest` | mqtt/thread_queue.h:247-278 | in every run a `get` that is over has taken the value that was the oldest then, or was a timed one that found the queue empty |
| `QueueThreads.WokenPutLooks` | mqtt/thread_queue.h:150-160 | a sleeping `put` that is woken for no reason adds its value if there is room, and otherwise sleeps again with nothing changed |
| `QueueThreads.WokenGetLooks` | mqtt/thread_queue.h:199-278 | the same for a `get`; a timed one may also give up, with nothing changed, when the queue is empty |
| `QueueThreads.TriesAtOnce` | mqtt/thread_queue.h:167-290 | the calls that never wait do it at once, or change nothing |
| `QueueWakeups.StepKeepsConsumersNotified` | mqtt/thread_queue.h:150-160 | with one consumer, or capacity one, every step keeps: items present and a consumer asleep means a signal is owed or a consumer is on its way |
| `QueueWakeups.StepKeepsProducersNotified` | mqtt/thread_queue.h:247-258 | the dual for producers, when the capacity is never raised |
| `QueueWakeups.SingleConsumerNeverStranded` | mqtt/thread_queue.h:150-160 | one consumer, any producers, any changes of capacity: asleep and unsignalled means the queue is empty or a signal is owed |
| `QueueWakeups.SingleProducerNeverStranded` | mqtt/thread_queue.h:230-258 | one producer, capacity never raised: asleep and unsignalled means the queue is full or a signal is owed |
| `QueueWakeups.CapacityOneNeverStrands` | mqtt/thread_queue.h:150-258 | capacity one, any number of threads: no wake-up is lost on either side |
| `QueueWakeups.TwoConsumersStrand` | mqtt/thread_queue.h:154-159 | any two consumers and a capacity of two or more: a run that leaves one asleep on a non-empty queue with nothing under way to wake it |
| `QueueWakeups.TwoProducersStrand` | mqtt/thread_queue.h:252-256 | the same for two producers and room in the queue |
| `QueueWakeups.RaisingStrandsAProducer` | mqtt/thread_queue.h:132-135 | raising the capacity leaves even a single producer asleep |
| `QueueWakeups.ConsumersSafeExactly` | mqtt/thread_queue.h:132-258 | no run strands a consumer if and only if there is one consumer, or the capacity is one and never raised |
| `QueueWakeups.ProducersSafeExactly` | mqtt/thread_queue.h:132-258 | no run strands a producer if and only if the capacity is never raised, and there is one producer or the capacity is one |
| `SpeedTest.StepKeepsInv` | samples/pub_speed_test.cpp:62-147 | every step of the two threads and the library, exceptions included, keeps the invariant of the program |
| `SpeedTest.NeverStuck` | samples/pub_speed_test.cpp:62-147 | in every reachable unfinished state a step other than a spurious wake-up can be taken, unless a publish was refused, or an exception left a bounded queue without a reader, or the process was killed by a division by zero |
| `SpeedTest.MeasureFalls` | samples/pub_speed_test.cpp:62-147 | every step other than a spurious wake-up makes the remaining work smaller |
| `SpeedTest.RunsAreShort` | samples/pub_speed_test.cpp:62-147 | so the length of a run is bounded by the work that is left |
| `SpeedTest.EndsWithAllTokensInOrder` | samples/pub_speed_test.cpp:62-147 | a finished run has taken exactly the published tokens and then the null token, in order, every token complete; after an exception, the tokens up to the one that failed |
| `SpeedTest.EndsInTime` | samples/pub_speed_test.cpp:62-147 | without spurious wake-ups a run for n messages has at most 13n + 20 steps, whatever goes wrong |
| `SpeedTestEnds.RefusalHangs` | samples/pub_speed_test.cpp:111-147 | after a refused publish no run in which no message fails ever comes to its end |
| `SpeedTestEnds.RunsOut` | samples/pub_speed_test.cpp:62-147 | every run can be continued until nothing but spurious wake-ups is left |
| `SpeedTestEnds.FinishesExactly` | samples/pub_speed_test.cpp:62-147 | every run that cannot go on has come to its end if and only if publishing takes at least a millisecond, and nothing is published, or no publish is refused and, if a message can fail, the queue has room for all that is put but the first token |
| `Consuming.ConsumedIsPrefixOfArrivals` | async_client.cpp:150-222 | what consumers of a session are handed is a prefix of its arrivals in order, with a null pointer exactly at a connection loss, and nothing is dropped |
| `Consuming.ArrivalsOfTheSession` | async_client.cpp:788-805 | over every run, the arrivals are those of the callbacks since consuming was last started |
| `Consuming.SessionStartsEmpty` | async_client.cpp:788-805 | a session begins with an empty unbounded queue |
| `Consuming.ArrivalIsQueued` | async_client.cpp:150-222 | a callback that finds room puts its message, or a null pointer, at the end of the queue |
| `Consuming.EntryIsConsumed` | mqtt/async_client.h:640-649 | a consumer that finds something takes the oldest entry |
| `Consuming.EntryIsTaken` | mqtt/async_client.h:647-649 | one that does not wait takes it at once |
| `Tokens.Token.constructor` | token.cpp:31-53 | a new token is incomplete, with success codes and no response |
| `Tokens.Token.SetNumExpected` | mqtt/token.h:398 | changes only the number of results expected |
| `Tokens.Token.SetMessageId` | mqtt/token.h:137-140 | changes only the message ID |
| `Tokens.Token.OnSuccess` | token.cpp:90-119 | the v3 success: codes, ID and the response that belongs to the type of token; a reason code from before stays |
| `Tokens.Token.OnSuccess5` | token.cpp:132-160 | the v5 success, which also reports a reason code |
| `Tokens.Token.OnFailure` | token.cpp:173-191 | the v3 failure: return code, message if there is one, and the reason code that marks v3; -1 without data |
| `Tokens.Token.OnFailure5` | token.cpp:204-220 | the v5 failure |
| `Tokens.Token.Reset` | token.cpp:233-240 | incomplete again with success codes; the responses are kept |
| `Tokens.Token.CheckRet` | mqtt/token.h:187-190 | throws exactly for a non-zero return code or a reason code above 2, with the token's return code, reason code and message, in this order |
| `Tokens.Token.TryWait` | mqtt/token.h:420-464 | false exactly when incomplete; when complete, throws as `check_ret` does |
| `Tokens.Token.GetConnectResponse` | token.cpp:249-262 | the errors in order: wrong type, failed operation, no response; else the response |
| `Tokens.ReplayedCodes` | token.cpp:90-240 | after any history of completions and resets, completeness and both codes as functions of the completions since the last reset |
| `Tokens.WaitOutcome` | token.cpp:242-247 | `wait` can return exactly when a completion came after the last reset, and then throws exactly for that completion's return code or the last reason code reported since |
| `Tokens.WaitThrowsWhat` | mqtt/token.h:187-190 | over every history, what `wait` throws is the return code of the last completion, with the last reason code and the last message reported since the reset |
| `Tokens.MessageIdIsTheLast` | token.cpp:90-220 | over every history, the message ID is the last that was set, by the client or by a callback with data |
| `Tokens.ResponsesAreTheLast` | token.cpp:90-160 | over every history, a token holds the response of the last success with data, of its own kind only; a v3 subscription's is for the number of results expected |
| `Tokens.WaitDependsOnTheOneCompletion` | token.cpp:233-247 | with one completion since the reset, the outcome is that of the completion on a fresh token: no earlier error survives; `AsyncAttempts` says when there is just one |
| `Tokens.WhenTheLastCompletionDecides` | token.cpp:90-247 | with several completions since the reset, exactly when the last one alone decides the outcome |
| `Tokens.V3FailureThrows` | token.cpp:173-191 | after a v3 failure `wait` always throws, whatever code the failure carries |
| `Tokens.StaleReasonThrows` | async_client.cpp:436-457 | a token resubmitted in flight can throw after a success, for the reason code of the other attempt |
| `Tokens.ConnectResponseIsTheLast` | token.cpp:233-262 | the connect response is that of the last success that carried data, resets or not |
| `AsyncLedger.StepKeepsLedgerInv` | async_client.cpp:252-457 | a step keeps the account of a token if and only if it is not a `connect` that reads another token in `connTok_` than it added or handed over |
| `AsyncLedger.PendingListsMatchSubmissions` | async_client.cpp:252-457 | in every run, a token is in the lists, at each moment, exactly as often as it was added and not yet removed by a refusal or by its callback, if and only if no `connect` misreads it |
| `AsyncLedger.OthersAccounted` | async_client.cpp:252-457 | so in every run it is, for every token that `connect` has not made |
| `AsyncLedger.LibraryAddressesAreOwned` | token.cpp:117-126 | in every run, every address of such a token that the library holds, or that its callback still uses, belongs to a token owned by a pending list |
| `AsyncLedger.QuiescentListsAreEmpty` | async_client.cpp:271-303 | when nothing is in flight or running, the delivery list is empty and the other holds at most tokens of `connect` |
| `AsyncOverlap.StepKeepsCovered` | async_client.cpp:381-407 | as long as each `connect` in progress finds in `connTok_` what it saw there, or nothing, every step keeps at least as many entries in the lists as are needed |
| `AsyncOverlap.StepKeepsSole` | async_client.cpp:381-407 | one unfinished `connect` at a time finds its own token each time |
| `AsyncOverlapRuns.OverlapDisowns` | async_client.cpp:381-407 | from any state in which a `connect` begins while another is between its first use of `connTok_` and the answer: a run in which the library holds the address of a token to which no pointer is left, in a list, in `connTok_`, with the user or in a running function |
| `AsyncOverlapRuns.OverlapUnbalances` | async_client.cpp:381-407 | from any state in which a `connect` begins while another is unfinished: a run in which the account of a token fails |
| `AsyncOverlapRuns.OwnedExactly` | async_client.cpp:381-457 | under a policy on when `connect` and `reconnect` may begin, every address held by the library is always owned by a pending list if and only if no `connect` begins while another is between its first use of `connTok_` and the answer of the library; and some pointer or other to it is always left exactly then, too |
| `AsyncOverlapRuns.AccountExactly` | async_client.cpp:381-457 | under a policy, the lists always account for every submission if and only if no `connect` begins while another is unfinished |
| `AsyncOverlapRuns.NothingLeaks` | async_client.cpp:252-457 | under such a policy both lists are empty when nothing is in flight or running |
| `AsyncAttempts.StepKeepsAttemptInv` | async_client.cpp:381-457 | a step that begins no `connect` or `reconnect` too early keeps, for every token, at most one completion done or to come since the last reset |
| `AsyncAttempts.OneCompletionPerAttempt` | async_client.cpp:436-457 | under a policy that lets none begin too early, a token is completed at most once since its construction or last reset, and not at all while it is in flight |
| `AsyncAttempts.CompleteMeansCompleted` | token.cpp:117-118 | in every run `complete_` is true exactly when there was a completion since the last reset |
| `AsyncAttempts.CompleteMayReconnect` | token.cpp:117-126 | once the token of `connect` is complete, as after `wait` and in its listener, a `reconnect` is not too early, unless another one is about to reset the token |
| `AsyncAttemptRuns.CompletedTwice` | token.cpp:90-126 | a callback about to complete a token of which another submission is in flight: a run in which the token is completed twice without a reset |
| `AsyncAttemptRuns.BegunTooEarly` | async_client.cpp:381-457 | from any state in which a `reconnect` begins while another completion of its token is on the way, or a `connect` while another has still to hand its token over: such a run |
| `AsyncAttemptRuns.OneCompletionExactly` | async_client.cpp:381-457 | under a policy no token is ever completed twice without a reset in between if and only if none of these calls begins too early |
| `AsyncAttemptRuns.WaitExactly` | token.cpp:233-247 | under a policy the outcome of `wait` is always that of the last completion on a fresh token, whatever the callbacks report, if and only if none of these calls begins too early |
| `AsyncWaits.WaitEndsComplete` | token.cpp:242-247 | over every run, a `wait` that is over and has not given up was going on at a moment when the token was complete |
| `AsyncWaits.TestDecides` | token.cpp:242-247 | whoever finds the token incomplete goes to sleep, and whoever finds it complete returns |
| `AsyncWaits.NotifyWakesAll` | token.cpp:123-124 | `notify_all` wakes exactly those who sleep on the token |
| `AsyncWaits.WokenLooksAgain` | token.cpp:242-247 | one who is woken while the token is incomplete looks, and sleeps again |
| `AsyncWaits.TimeIsUp` | mqtt/token.h:430-464 | or gives up, when it is a timed one, and leaves everything as it is |
| `AsyncWaits.GivesUpIncomplete` | mqtt/token.h:430-464 | it gives up on no other than an incomplete token, and while it holds the mutex of the token |
| `AsyncWaits.SomebodySleeps` | token.cpp:242-247 | a run in which a thread sleeps on a token that is in flight |
| `AsyncWaits.OnlyUsersChange` | async_client.cpp:252-312 | only a step that the mutex protects changes the pending lists, the user callback, or `complete_` |
| `AsyncWaits.NoRaces` | async_client.cpp:252-312 | in every run no two threads are at such a step for the same data, reading ones included |
| `AsyncWaits.CallbackIsTheLastSet` | async_client.cpp:309-330 | in every run the user callback is the one that the last finished `set_callback` has set |
| `AsyncWaits.UserHoldsWhatWasReturned` | async_client.cpp:381-457 | in every run the user has exactly the tokens that were returned and not given up since |
| `AsyncCalls.EverythingCanBeCalled` | token.cpp:117-126 | a thread of the user's, a listener and `delivery_complete` can each call every function of the client |
| `AsyncCalls.SubmitAccepted` | async_client.cpp:556-620 | `publish` or another request, from call to return with nobody else moving, when it is accepted: the token is pending, in flight and with the user, and nothing else has changed |
| `AsyncCalls.SubmitRefused` | async_client.cpp:556-620 | and when it is refused: nothing is left of it but, for a message, that `delivery_complete` was called if due |
| `AsyncCalls.ConnectAccepted` | async_client.cpp:381-407 | the same for `connect`: its token is kept, pending, in flight and with the user |
| `AsyncCalls.ConnectRefused` | async_client.cpp:381-407 | and refused: the lists are as they were, and `connTok_` is null |
| `AsyncCalls.ReconnectAccepted` | async_client.cpp:436-457 | the same for `reconnect`: the token is incomplete again, and once more pending and in flight |
| `AsyncCalls.ReconnectRefused` | async_client.cpp:436-457 | and refused: the token has been reset all the same, and is out of the list once again |
| `AsyncCalls.CallbackAlone` | token.cpp:90-126 | the same for a callback: the token is complete, all sleepers on it are awake, it has left the lists, and `delivery_complete` was called if due |
| `AsyncCalls.WaitAlone` | token.cpp:242-247 | `wait` alone: on a complete token it changes nothing, and on another it ends asleep |
| `AsyncCalls.SetCallbackAlone` | async_client.cpp:309-330 | `set_callback` sets the callback and nothing else |
| `AsyncCalls.QueryAlone` | async_client.cpp:500-528 | a look at the pending lists changes nothing |
| `AsyncCalls.AcknowledgedIsDelivered` | async_client.cpp:271-292 | a callback is set, a message of QoS 1 or 2 published, accepted and completed: `delivery_complete` has been called with its token |
| `AsyncDelivery.StepKeepsPlace` | async_client.cpp:271-296 | a delivery token is still to be added, in the list, or out of it; the callback is looked at once, when it leaves |
| `AsyncDelivery.DeliveryCompleteExactlyWhenDue` | async_client.cpp:271-296 | in every run, the calls of `delivery_complete` for a token are one if it left the list with QoS above 0 and a callback set, and none otherwise |
| `AsyncDelivery.EveryPublishIsSettled` | async_client.cpp:556-597 | once all is at rest, every published token has left the list and had its call exactly if due, however the send ended |
| `AsyncMutexes.AtMostOneMutexEach` | async_client.cpp:252-303 | no thread holds two mutexes, the client's or a token's, and none during a listener or `delivery_complete` |
| `AsyncMutexes.HolderCanAlwaysAdvance` | async_client.cpp:252-303 | whoever holds a mutex that another thread waits for can go on and release it without taking another, so no cycle can form |
| `AsyncMutexes.NoWaiterIsLost` | token.cpp:117-126 | while a thread sleeps on a complete token, some callback has still to call `notify_all`, over any mix of waiters, completions and resets |
| `AsyncMutexes.SignalledOnlyAfterListener` | token.cpp:117-126 | over every run: a thread asleep when the one callback for its token has begun sleeps until that callback's listener has returned and `notify_all` is called, unless it is woken spuriously |
| `AsyncMutexes.LateWaiterOvertakesListener` | token.cpp:117-124 | a run in which a later `wait` returns while the listener is still running |
| `AsyncClient.AsyncClient.constructor` | mqtt/async_client.h:110-126 | no tokens, no queue, no callbacks |
| `AsyncClient.AsyncClient.AddToken` | async_client.cpp:252-258 | appends; a null pointer changes nothing |
| `AsyncClient.AsyncClient.AddDeliveryToken` | async_client.cpp:260-266 | the same for the delivery list |
| `AsyncClient.AsyncClient.RemoveToken` | async_client.cpp:271-303 | takes one occurrence out of the delivery list or else out of the other; `delivery_complete` exactly for a delivery token with QoS above 0 and a callback |
| `AsyncClient.RemovesAlike` | async_client.cpp:271-303 | the removal changes the lists as the step of `AsyncThreads` does, under any naming of the tokens, and is followed by `delivery_complete` in the same cases |
| `AsyncClient.AddsAlike` | async_client.cpp:252-266 | the same for the additions |
| `AsyncClient.AsyncClient.Connect` | async_client.cpp:381-407 | a new token, kept and pending; a refusal leaves the lists as they were and clears `connTok_` |
| `AsyncClient.AsyncClient.Reconnect` | async_client.cpp:436-457 | resets and resubmits the token of `connect`; a refusal takes one occurrence out again |
| `AsyncClient.AsyncClient.Publish` | async_client.cpp:556-575 | a new pending token with its message ID; a refusal leaves the lists as they were and still calls `delivery_complete`, with the token just made |
| `AsyncClient.AsyncClient.Subscribe` | async_client.cpp:602-620 | a new pending token; a refusal leaves the lists as they were |
| `AsyncClient.AsyncClient.GetPendingDeliveryToken` | async_client.cpp:500-516 | the first pending token with the ID; none exactly when the ID is not positive or no token has it |
| `AsyncClient.AsyncClient.GetPendingDeliveryTokens` | async_client.cpp:518-528 | exactly the pending tokens with an ID, in order |
| `AsyncClient.WithIdSelects` | async_client.cpp:518-528 | that selection has each such token as often as the list does, and no other |
| `AsyncClient.WithIdOfOne` | async_client.cpp:518-528 | of one token, that is the token if its ID is positive, and nothing otherwise |
| `AsyncClient.WithIdKeepsOrder` | async_client.cpp:518-528 | the selection keeps the order of the list |
| `AsyncClient.AsyncClient.StartConsuming` | async_client.cpp:788-805 | a new empty unbounded queue, even when the library then refuses the callbacks |
| `AsyncClient.AsyncClient.StopConsuming` | async_client.cpp:807-817 | no queue, even when the library refuses |
| `AsyncClient.AsyncClient.OnMessageArrived` | async_client.cpp:190-222 | which parts of the user's code are reached, in order, and the message in the queue |
| `AsyncClient.AsyncClient.OnConnectionLost` | async_client.cpp:150-169 | the same for a lost connection, with a null pointer in the queue |
| `AsyncClient.AsyncClient.ConsumeMessage` | mqtt/async_client.h:640-649 | the oldest entry, a null one included, or none when the queue is empty |
| `Announcement.WordsOfAnnouncement` | appFiles/_appClient.cpp:52 | an announcement reads back as the address followed by the words of the line that the user typed |
| `Announcement.AnnouncementReadBack` | appFiles/utils.cpp:66-77 | the address is read back exactly when it is an IP address, and is empty otherwise; the user name exactly when it is the only word typed, the password exactly when it is the second of two |
| `Announcement.BlankHasNoWords` | appFiles/utils.cpp:68-71 | a text of blanks has no words |
| `Announcement.WordsCut` | appFiles/utils.cpp:68-71 | blanks, a word, and a rest that is empty or begins with a blank have this word first and then the words of the rest |
| `BackupRegistration.StepKeepsInv` | appFiles/_appServer.cpp:82-185 | every step keeps: the topics subscribed to are the public one, those of registered clients, and that of the client being registered |
| `BackupRegistration.RegisteredBeforeServed` | appFiles/_appServer.cpp:208-266 | every message that the loop takes from a client's topic, and every handler's, is of a client already in `m_clients` |
| `BackupRegistration.AnnouncementsAreReadable` | appFiles/_appServer.cpp:98-102 | the loop never meets a public message without words |
| `BackupKeyHandover.StepKeepsHandover` | appFiles/_appClient.cpp:76-101 | until the client has the key, every step keeps it on the way to the client or in the slot, and nobody publishes anything else there |
| `BackupKeyHandover.KeyIsHandedOver` | appFiles/_appServer.cpp:160-168 | once the key is published and the client subscribed, in either order, the key is on the way, in the queue, or accepted |
| `BackupKeyHandover.OnlyTheServersKeyIsAccepted` | appFiles/_appClient.cpp:121-153 | a client accepts no other key, and works exactly when it has one |
| `BackupStaleSlots.StaleRequestLosesKey` | appFiles/_appServer.cpp:141-168 | a request retained before the start: a run in which its reply overwrites the key before the client subscribes |
| `BackupStaleSlots.ForeignKeyLosesKey` | appFiles/_appClient.cpp:137-145 | a foreign key retained before the start: a run in which the client accepts it and discards the server's |
| `BackupStaleSlots.HandoverSafeExactly` | appFiles/_appClient.cpp:76-153 | every run hands the key over if and only if the client's slot holds neither at the start |
| `BackupOutcome.StepKeepsServed` | appFiles/_appServer.cpp:82-185 | every step keeps: of whoever is heard, the announcement is on the way to the loop, or the key has been sent |
| `BackupOutcome.StepKeepsSourced` | appFiles/_appServer.cpp:141-185 | every step keeps: the server registers, and publishes to, only those it has heard of |
| `BackupOutcome.KeyExactlyWhenHeard` | appFiles/_appServer.cpp:59-115 | when nothing is left to do, a client has the key if and only if an announcement of its address reached the broker after the server's subscription or was the one retained then, or the key was left in its slot from before |
| `BackupSettles.StepShrinks` | appFiles/_appServer.cpp:82-251 | every step of the service but the users' typing leaves less to do |
| `BackupSettles.SettlesInTime` | appFiles/_appServer.cpp:82-251 | a run in which nobody types has at most 18 + 22n steps for n clients |
| `BackupSettles.RunsOut` | appFiles/_appServer.cpp:82-251 | every run can be continued, without anybody typing, until nothing is left to do |
| `BackupSettles.HeardGetsItsKey` | appFiles/_appClient.cpp:121-153 | and in such a continuation a client that has been heard has its key |
| `BackupRest.AtRest` | appFiles/_appServer.cpp:82-251 | in every run, when nothing is left to do: nothing is on the way, the loop has taken all that was sent to the server, every handler has ended, and a client waits for its key or lets its user type |
| `BackupRest.ReachesServer` | appFiles/_appServer.cpp:59-68 | in every run what a client publishes on a topic is sent to the server once it has subscribed to it |
| `BackupRest.ReachesClient` | appFiles/_appClient.cpp:94 | and what anybody publishes on a client's topic to that client once it has |
| `BackupRest.TakenIsAnswered` | appFiles/_appServer.cpp:208-251 | when nothing is left to do, every request that was sent to the server has been answered, on its topic and after it |
| `BackupRest.TypedRequestIsAnswered` | appFiles/_appClient.cpp:46-153 | from every state of every run in which a client has its key and the server its topic: its user can type a request, and the run can go on, without anybody typing, to a state in which nothing is left to do and the client has consumed the answer |
| `BackupAcks.RegisteredIsOpened` | appFiles/_appServer.cpp:141-185 | in every run, whoever is registered has its topic subscribed to and its key published, and the key is published only on a subscribed topic |
| `BackupAcks.ClientsTakeTurns` | appFiles/_appClient.cpp:76-101 | in every run, a client has one packet on the way at most, subscribes after its announcement was taken, and waits for its key after it was subscribed |
| `BackupWires.SlotIsLastPublished` | appFiles/_appClient.cpp:85 | in every run the broker retains on a topic what was published there last, unless that was empty, and else what was there at the start |
| `BackupWires.SaidIsHeard` | appFiles/_appClient.cpp:46-101 | in every run what the broker has taken from a client, and then what it has still to take, is what the user has announced and typed, in order |
| `BackupWires.ServerTakesWhatIsSent` | appFiles/_appServer.cpp:59-92 | in every run what the server's loop has taken, and then what is coming, is what the broker has sent it, in order |
| `BackupWires.ClientTakesWhatIsSent` | appFiles/_appClient.cpp:121-153 | the same for what a client consumes |
| `BackupWires.ReplyTellsTheOutcome` | appFiles/_appServer.cpp:241-247 | in every run a reply names the path asked for, and says "succeed!" exactly when the command of its handler has succeeded |
| `BackupForgotten.ForgottenForEver` | appFiles/_appClient.cpp:76-101 | a client whose announcement was not heard when the server came is never heard of |
| `BackupForgotten.FirstOfTwoIsForgotten` | appFiles/_appClient.cpp:76-101 | of any two clients that announce themselves before the server subscribes, a run after which the first never gets the key, however it goes on |
| `BackupReplies.StepKeepsInv` | appFiles/_appServer.cpp:208-251 | every step keeps the account of replies sent and taken by the broker, and of what each answers |
| `BackupReplies.OneHandlerPerMessage` | appFiles/_appServer.cpp:105-110 | there is one handler for each message taken from a client's topic, in order |
| `BackupReplies.OneReplyPerRequest` | appFiles/_appServer.cpp:208-251 | a handler publishes exactly one reply if its message is a request, and none otherwise; when it has ended the broker has the reply |
| `BackupReplies.RepliesAnswerRequests` | appFiles/_appServer.cpp:208-251 | every reply answers an earlier request, of a client or retained at the start, on its own topic, and is no request itself |
| `BackupReplies.NoReplyIsServed` | appFiles/_appServer.cpp:62-68 | nothing that the server published ever gets a handler |
| `BackupReplies.RetainedRequestIsUnanswered` | appFiles/_appServer.cpp:241-247 | a request in a topic's retained slot is one to which no published reply belongs |
| `BackupApp.AppServer.constructor` | appFiles/_appServer.cpp:12-16 | nobody is registered, no message is held and no handler runs |
| `BackupApp.AppServer.SearchForClient` | appFiles/_appServer.cpp:253-266 | the first registered client with the address, and none exactly when there is none |
| `BackupApp.AppServer.HandleNewSubscriber` | appFiles/_appServer.cpp:141-185 | subscribes, publishes the key, and registers the announced client last |
| `BackupApp.AppServer.HandleBackupRequest` | appFiles/_appServer.cpp:208-251 | replies on the sender's topic exactly to a request, with the text that belongs to the outcome, and never with a request |
| `BackupApp.AppServer.Work` | appFiles/_appServer.cpp:86-111 | which messages register a client, which get a handler, and which are dropped |
| `BackupTurns.TurnIsWork` | appFiles/_appServer.cpp:86-111 | in every run, from one message that the loop consumes to the next, whatever happens in between: what the loop sends, whom it registers and which handlers it spawns are what `Work` does with that message |
| `BackupApp.RequestsBeginWithTilde` | appFiles/_appServer.cpp:217 | a request is what begins with a tilde |
| `BackupApp.AcceptedKeys` | appFiles/_appClient.cpp:116-145 | a message is taken as the key exactly when it is on the own topic and "ssh-rsa" stands somewhere in it |
| `BackupApp.AppClient.constructor` | appFiles/_appClient.cpp:13-19 | the private channel is the own address, and there is no key yet |
| `BackupApp.AppClient.GetPublicKeyMsg` | appFiles/_appClient.cpp:121-153 | takes everything up to the first message on its own topic that contains "ssh-rsa", which becomes the key, or to a lost connection |
| `RpcArguments.Parse` | samples/rpc_math_srvr.cpp:146-164 | the loop computes the specified reading of the text, with the error that belongs to it |
| `RpcArguments.ItemsAreRead` | samples/rpc_math_srvr.cpp:156-164 | a text of the grammar is read to its end, whatever was read before |
| `RpcArguments.ReadsAreItems` | samples/rpc_math_srvr.cpp:156-164 | what was read up to a closing bracket is a text of the grammar |
| `RpcArguments.AcceptsExactlyTheGrammar` | samples/rpc_math_srvr.cpp:146-164 | a text is accepted with a list if and only if it begins with '[' number (',' number)* ']', where each number has a `double`, and these are the list; it is not empty |
| `RpcArguments.RejectsExactlyTheRest` | samples/rpc_math_srvr.cpp:146-164 | a text is malformed exactly when no opening bracket comes first, and has a bad closing delimiter exactly when one does and no list of the grammar follows |
| `RpcArguments.Print` | samples/rpc_math_cli.cpp:110-116 | the loop prints the specified text |
| `RpcArguments.NumberIsScanned` | samples/rpc_math_srvr.cpp:155-157 | a decimal number, followed by something that cannot belong to it, is read to its end and by its parts |
| `RpcValues.IntDenotes` | samples/rpc_math_srvr.cpp:155-157 | a whole number is denoted by its decimal digits, after a minus sign when it is negative |
| `RpcValues.SignDecides` | samples/rpc_math_srvr.cpp:155-157 | a plus sign does not change the value of a number and a minus sign changes its sign |
| `RpcValues.FractionDigit` | samples/rpc_math_srvr.cpp:155-157 | a further digit of the fraction adds its part |
| `RpcValues.ExponentScales` | samples/rpc_math_srvr.cpp:155-157 | the exponent 0 changes nothing, and one more or one less scales by ten |
| `RpcValues.ExponentDenotes` | samples/rpc_math_srvr.cpp:155-157 | a whole number with an exponent of either mark and any sign denotes it so many times multiplied, or divided, by ten |
| `RpcValues.PointDenotes` | samples/rpc_math_srvr.cpp:155-157 | digits may stand on either side of the point alone |
| `RpcValues.NoNumbers` | samples/rpc_math_srvr.cpp:155-157 | a point or sign alone, and an exponent without digits, are no numbers |
| `RpcArguments.PrintedIsParsedBack` | samples/rpc_math_cli.cpp:110-116 | parsing what was printed gives the numbers back, for every non-empty list of decimal numbers that have a `double` |
| `StringCollections.StringCollection.constructor` | mqtt/string_collection.h:75 | empty, with an empty array |
| `StringCollections.StringCollection.FromVector` | string_collection.cpp:36-44 | the strings, with the array in step |
| `StringCollections.StringCollection.Copy` | string_collection.cpp:46-49 | the same strings in storage of its own, and an array that points there |
| `StringCollections.StringCollection.UpdateCArr` | string_collection.cpp:65-71 | the array points to where the strings are |
| `StringCollections.StringCollection.PushBack` | string_collection.cpp:80-90 | appends, with the array in step even when the strings have moved |
| `StringCollections.StringCollection.Clear` | string_collection.cpp:92-96 | no strings and no pointers |
| `Persistence.LeastExists` | samples/sync_publish.cpp:89-95 | the order of `std::map` has a least key in every non-empty set of keys |
| `Persistence.LessIsLexicographic` | samples/sync_publish.cpp:89-95 | that order is decided by the first place in which two keys differ, or by the end of the shorter one |
| `Persistence.ListingIsUnique` | samples/sync_publish.cpp:89-95 | the ascending listing of a set of keys is determined by the set, and has each key once |
| `Persistence.MemPersistence.constructor` | samples/sync_publish.cpp:62 | closed and empty |
| `Persistence.MemPersistence.Open` | samples/sync_publish.cpp:65-69 | opens |
| `Persistence.MemPersistence.Close` | samples/sync_publish.cpp:72-75 | closes; the data stays |
| `Persistence.MemPersistence.Clear` | samples/sync_publish.cpp:78-81 | nothing is stored any more |
| `Persistence.MemPersistence.Keys` | samples/sync_publish.cpp:89-95 | the collection lists the keys in ascending order, with its array in step |
| `Persistence.MemPersistence.Put` | samples/sync_publish.cpp:98-105 | the key holds the buffers in order; other keys keep what they hold |
| `Persistence.ConcatOfOne` | samples/sync_publish.cpp:98-105 | one buffer is put as it is |
| `Persistence.ConcatInOrder` | samples/sync_publish.cpp:98-105 | the buffers are put one after the other, in order |
| `Persistence.MemPersistence.Get` | samples/sync_publish.cpp:108-118 | what the key holds, or the exception exactly when the key is missing |
| `Persistence.MemPersistence.Remove` | samples/sync_publish.cpp:121-128 | takes the key out, or the exception exactly when the key is missing |
| `PersistenceCalls.ToIntWraps` | iclient_persistence.cpp:78-92 | the length is cast to the 32-bit number that it equals modulo 2^32 |
| `PersistenceCalls.PersistenceOpen` | iclient_persistence.cpp:33-46 | the handle becomes the store exactly when all four pointers are there |
| `PersistenceCalls.PersistenceClose` | iclient_persistence.cpp:48-59 | fails exactly without a handle |
| `PersistenceCalls.PersistencePut` | iclient_persistence.cpp:61-76 | one put on a plain map, of the first bytes of each buffer; a failed call changes nothing |
| `PersistenceCalls.PersistenceGet` | iclient_persistence.cpp:78-92 | one get on a plain map, the length cast to `int`; the error code for a missing key or pointer |
| `PersistenceCalls.PersistenceRemove` | iclient_persistence.cpp:94-105 | one removal from a plain map |
| `PersistenceCalls.PersistenceKeys` | iclient_persistence.cpp:107-121 | what C reads through the array is the listing of the keys; no array comes with an empty store |
| `PersistenceCalls.PersistenceClear` | iclient_persistence.cpp:123-134 | one clearing of a plain map |
| `PersistenceCalls.PersistenceContainsKey` | iclient_persistence.cpp:136-146 | success exactly when the key is stored |
| `PersistenceCalls.GetReturnsTheStandingPut` | iclient_persistence.cpp:61-92 | after any calls, get gives the buffers, in order, of the last put of the key that no later put, remove or clear replaced, and fails exactly when there is none |
| `PersistenceCalls.KeysListsTheStandingPuts` | iclient_persistence.cpp:107-121 | after any calls, keys lists exactly the keys with such a put, ascending and once each |
| `PersistenceCalls.FailedCallLeavesNoTrace` | iclient_persistence.cpp:61-146 | a call that fails can be struck out of any sequence of calls without changing the map |

## Left out

- The Paho C library, sockets, TLS, clocks and the broker's internals: only the environment stated above.
- `try_put_for` and `try_put_until`: they enqueue the pointer they are given and not the value it points to.
- Option wrappers, properties and message copying: they mirror fields of C structures.
- The synchronous client: it forwards to the asynchronous one.
- `unsubscribe`, `disconnect`, and the overloads with listeners: in `AsyncThreads` they are other submissions of the same shape, and in `AsyncClient` they would repeat `Subscribe`, `Connect` and `Publish`.
- `get_subscribe_response` and `get_unsubscribe_response`: they have the shape of `get_connect_response`.
- ThreadQueue.ThreadQueue.Put: one pass through the test of the predicate; the sleeping and the second pass are steps of `QueueThreads`.
- AsyncClient.AsyncClient.Reconnect: the two library calls in it are one answer here.
- AsyncClient.AsyncClient.OnMessageArrived: the user's code that it reaches is named and not run; the copying of the message is not modelled.
- Consuming.ConsumedIsPrefixOfArrivals: `start_consuming` while a consumer is blocked is excluded, because the queue pointer is replaced without a lock; `stop_consuming` is not a step of that machine.
- SpeedTest.StepKeepsInv: exceptions from `connect`, before the waiting thread exists, and from `disconnect`, after it has ended, are not steps; the clock is a parameter.
- AsyncOverlapRuns.OwnedExactly: each access to `connTok_` is atomic; two unsynchronised ones at the same time are undefined in C++.
- BackupApp.AppServer.HandleBackupRequest: the shell command is its outcome, and the not-found return of `searchForClient` is only reported; `BackupRegistration` proves that it is not reached.
- RpcArguments.AcceptsExactlyTheGrammar: the rounding of a real number to `double`, and which numbers are out of range, are a parameter; the sign of a zero is not modelled.
- PersistenceCalls.PersistenceGet: the address it returns into the store is modelled as the bytes there.
- PersistenceCalls.PersistencePut: the key must be there, since the callback does not test it, and the arrays must have the lengths they claim.
- Persistence.MemPersistence.Keys: the collection is one for the whole program, so another call of `keys`, on any store, overwrites it; the contract speaks of the moment of return.
- In the backup service: the server's reconnect code, last wills (set after connecting, so without effect on that connection), files, logging and console input, `isClientExist`, disconnection of clients.
- `add` and `mult` of the RPC server: sums and products of floating-point numbers.
