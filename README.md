# Redis message pipeline: a Dafny model of its state machine

This project models the core of RedisMessagePipeline: a durable single-queue
pipeline kept in a shared Redis store under one resource name, driven by a
consumer loop (`RedisPipelineConsumer`) and by operator commands
(`RedisPipelineAdmin`).

Each resource owns three slots. The model keeps them as the fields of one
shared `Store.Store` object, which stands for the slots of one resource; the
consumer and admin objects therefore do not carry the resource name, and the
key functions are modelled separately to show that distinct resources and
distinct slots never share a key:

- `messages: seq<string>` is the message list (`{resource}:messages`). An absent list and an empty list are the same.
- `state: Option<string>` is the raw state scalar (`{resource}:state`). It is absent, a decimal retry count, the sentinel `"STOPPED"`, or any other text.
- `failure: Option<Failure>` is the last-failure record (`{resource}:failure`). It holds the exception text, the payload and the timestamp, as in `RedisPipelineFailure`.

The modules follow the source files:

- `Store` holds the three slots. Its `Failure` datatype is the record of `RedisPipelineFailure` (RedisMessagePipeline/RedisPipelineFailure.cs:6-11).
- `Extensions` (`RedisPipelineExtensions`) has the sentinel `STATE_STOPPED` (RedisMessagePipeline/RedisPipelineExtensions.cs:11), `IsStopped` and the three key functions. It proves that the keys of different slots or different resources never collide. That fact is what justifies modelling the slots as independent fields.
- `StateCodec` models the .NET integer behaviour the consumer relies on: `int.TryParse`, decimal formatting of an `int`, and `count++` with 32-bit wrap-around.
- `Consumer` holds the default retry limit `DEFAULT_MAX_RETRIES`, which is `int.MaxValue` (RedisMessagePipeline/Consumer/RedisPipelineConsumerSettings.cs:15), and the pure specification of one poll (`PollStep`) and of a loop of polls (`Run`). It also holds the `Consumer` class. Its methods `Poll`, `HandleMessage`, `StoreFailure`, `HandleSuccess`, `HandleFailure` and `Execute` update the shared store step by step and are proved equal to that specification.
- `Admin` holds the specification of Push, Stop, Clean and Resume. The `Admin` class's methods update the same store and are proved equal to it.
- `ConsumerProperties` and `AdminProperties` state the rules of the pipeline as lemmas over the specification functions.

Every poll takes three inputs: whether the distributed lock was acquired, the handler's outcome (`Returned(true)`, `Returned(false)` or `Threw(message)`), and the current ticks. Clean and Resume take the lock outcome as an input. `Execute` runs one poll per element of a finite input sequence. Reaching the end of the sequence models cancellation.

## Model

| member | source | states |
|---|---|---|
| `Extensions.IsStopped` | RedisMessagePipeline/RedisPipelineExtensions.cs:13 | true for a present state equal to "STOPPED" and for nothing else, in both directions |
| `Extensions.MessagesKey` | RedisMessagePipeline/RedisPipelineExtensions.cs:14 | the key is the resource name followed by exactly ":messages" |
| `Extensions.StateKey` | RedisMessagePipeline/RedisPipelineExtensions.cs:15 | the key is the resource name followed by exactly ":state" |
| `Extensions.FailureKey` | RedisMessagePipeline/RedisPipelineExtensions.cs:16 | the key is the resource name followed by exactly ":failure" |
| `Extensions.IsStoppedExactly` | RedisMessagePipeline/RedisPipelineExtensions.cs:13 | a state is stopped exactly when it is present and equal to "STOPPED"; an absent state is never stopped |
| `Extensions.NumericNeverStopped` | RedisMessagePipeline/RedisPipelineExtensions.cs:11-13 | a retry count written by the pipeline (any formatted int, "0", "7", "-3") is never the stopped sentinel |
| `Extensions.ParsableNeverStopped` | RedisMessagePipeline/RedisPipelineExtensions.cs:11-13 | any state text that parses as an int is not the sentinel |
| `Extensions.MessagesKeyInjective` | RedisMessagePipeline/RedisPipelineExtensions.cs:14 | two resources with the same messages key are the same resource |
| `Extensions.StateKeyInjective` | RedisMessagePipeline/RedisPipelineExtensions.cs:15 | two resources with the same state key are the same resource |
| `Extensions.FailureKeyInjective` | RedisMessagePipeline/RedisPipelineExtensions.cs:16 | two resources with the same failure key are the same resource |
| `Extensions.SlotKeysDisjoint` | RedisMessagePipeline/RedisPipelineExtensions.cs:14-16 | a messages, a state and a failure key never coincide, even for different resources |
| `Extensions.KeysOfResourceDistinct` | RedisMessagePipeline/RedisPipelineExtensions.cs:14-16 | the three keys of one resource are pairwise distinct |
| `StateCodec.WrappingIncrement` | RedisMessagePipeline/Consumer/RedisPipelineConsumer.cs:157 | `count++` stays a 32-bit int: it adds one below int.MaxValue and wraps to int.MinValue at it |
| `StateCodec.FormatNat` | RedisMessagePipeline/Consumer/RedisPipelineConsumer.cs:159 | the decimal text of a count is non-empty, all digits, without leading zeros, and its digit value is the count |
| `StateCodec.FormatInt` | RedisMessagePipeline/Consumer/RedisPipelineConsumer.cs:159 | the text of an int is non-empty, starts with '-' exactly for negatives and is digits after the first character |
| `StateCodec.TryParseInt` | RedisMessagePipeline/Consumer/RedisPipelineConsumer.cs:155 | a successful parse gives a 32-bit value and starts with a sign or a digit |
| `StateCodec.FormatIntValue` | RedisMessagePipeline/Consumer/RedisPipelineConsumer.cs:159 | the text after an optional minus sign is a run of digits whose value is the magnitude of the int, with no leading zero unless the int is 0 |
| `StateCodec.TryParseIntValue` | RedisMessagePipeline/Consumer/RedisPipelineConsumer.cs:155 | with d the text after an optional sign, parsing succeeds exactly when d is non-empty, all digits and its signed value fits in 32 bits, and then yields that signed value |
| `StateCodec.ParseExamples` | RedisMessagePipeline/Consumer/RedisPipelineConsumer.cs:155 | "007" parses to 7, "+5" to 5, "-0" to 0, "-2147483648" to int.MinValue; "2147483648", "STOPPED", "" and "-" do not parse |
| `StateCodec.ParseFormatRoundTrip` | RedisMessagePipeline/Consumer/RedisPipelineConsumer.cs:155-159 | a count written by the consumer is parsed back to the same int at the next failure |
| `Consumer.FailureWrite` | RedisMessagePipeline/Consumer/RedisPipelineConsumer.cs:151-165 | after a failure nothing is written exactly when the state read was present but unparsable; an absent state gets "1"; anything written is the sentinel or a parsable count |
| `Consumer.FailureState` | RedisMessagePipeline/Consumer/RedisPipelineConsumer.cs:145-165 | the state after a failure is always present; unparsable text survives unchanged; the state becomes "STOPPED" only from a parsable count |
| `Consumer.PollStep` | RedisMessagePipeline/Consumer/RedisPipelineConsumer.cs:56-93 | a poll handles a message exactly when it holds the lock, the state is not stopped and the queue is non-empty, and then the head; it reports progress exactly when the handler succeeded; the queue loses its head on progress and is otherwise unchanged; progress sets state "0" and clears the failure; a poll that handles nothing changes nothing |
| `Consumer.Run` | RedisMessagePipeline/Consumer/RedisPipelineConsumer.cs:39-51 | the loop yields one poll result per input |
| `ConsumerProperties.RunUnfolds` | RedisMessagePipeline/Consumer/RedisPipelineConsumer.cs:39-51 | proof helper stating one step of `Run`'s definition: the first poll of the loop starts from the initial store and the later polls are the loop run from the first poll's result |
| `ConsumerProperties.RunChainsPolls` | RedisMessagePipeline/Consumer/RedisPipelineConsumer.cs:39-51 | each poll of the loop starts from the store the previous poll left |
| `Consumer.Consumer.Poll` | RedisMessagePipeline/Consumer/RedisPipelineConsumer.cs:56-93 | one poll's reported progress and its effect on all three slots equal `PollStep` of the old store |
| `Consumer.Consumer.HandleMessage` | RedisMessagePipeline/Consumer/RedisPipelineConsumer.cs:98-112 | success exactly when the handler returned true; a throw writes the failure record, nothing else changes |
| `Consumer.Consumer.StoreFailure` | RedisMessagePipeline/Consumer/RedisPipelineConsumer.cs:117-126 | the failure slot is overwritten with {exception message, payload, now}; queue and state unchanged |
| `Consumer.Consumer.HandleSuccess` | RedisMessagePipeline/Consumer/RedisPipelineConsumer.cs:131-140 | the state becomes "0" and the failure slot is deleted; the queue is unchanged |
| `Consumer.Consumer.HandleFailure` | RedisMessagePipeline/Consumer/RedisPipelineConsumer.cs:145-166 | the message goes back to the head; the state gets the escalated count read before the pop, or stays if that was unparsable |
| `Consumer.Consumer.Execute` | RedisMessagePipeline/Consumer/RedisPipelineConsumer.cs:39-51 | the loop performs the polls of `Run` in order and waits after exactly the polls that reported no progress |
| `ConsumerProperties.PollWithoutLock` | RedisMessagePipeline/Consumer/RedisPipelineConsumer.cs:65-68 | without the lock a poll reports false and changes no slot |
| `ConsumerProperties.PollWhileStopped` | RedisMessagePipeline/Consumer/RedisPipelineConsumer.cs:70-74 | in the stopped state a poll reports false, pops nothing, calls no handler, changes no slot |
| `ConsumerProperties.PollOnEmptyQueue` | RedisMessagePipeline/Consumer/RedisPipelineConsumer.cs:76-80 | on an empty queue a poll reports false and changes no slot |
| `ConsumerProperties.PollSuccess` | RedisMessagePipeline/Consumer/RedisPipelineConsumer.cs:82-88 | on success the poll reports true, handles the head, drops it, sets state "0" and clears the failure slot |
| `ConsumerProperties.PollFailureRequeuesHead` | RedisMessagePipeline/Consumer/RedisPipelineConsumer.cs:82-91 | on failure (false or throw) the poll reports false and the queue is exactly as before, head included |
| `ConsumerProperties.FailureRecordOnlyWhenThrown` | RedisMessagePipeline/Consumer/RedisPipelineConsumer.cs:98-126 | a throw writes {message, payload, now}; a false return keeps the previous record; a success deletes it |
| `ConsumerProperties.HeadOfLineRetry` | RedisMessagePipeline/Consumer/RedisPipelineConsumer.cs:145-149 | after a failed poll the next poll that gets through hands the same message to the handler |
| `ConsumerProperties.FailureFromAbsent` | RedisMessagePipeline/Consumer/RedisPipelineConsumer.cs:151-154 | an absent state becomes "1" on failure whatever MaxRetries is |
| `ConsumerProperties.FailureFromCount` | RedisMessagePipeline/Consumer/RedisPipelineConsumer.cs:155-159 | a count n becomes "STOPPED" when its successor reaches MaxRetries, and the successor otherwise |
| `ConsumerProperties.FailureFromParsable` | RedisMessagePipeline/Consumer/RedisPipelineConsumer.cs:155-159 | any text that parses as a 32-bit count n, canonical or not, becomes "STOPPED" when the wrapped successor of n reaches MaxRetries and that successor's decimal text otherwise |
| `ConsumerProperties.FailureFromNonCanonical` | RedisMessagePipeline/Consumer/RedisPipelineConsumer.cs:155-159 | "007" fails to "8" under limit 100, and "+5" fails to "STOPPED" under limit 6 |
| `ConsumerProperties.DefaultLimitStopsOnlyAtIntMax` | RedisMessagePipeline/Consumer/RedisPipelineConsumerSettings.cs:15 | under the default limit int.MaxValue only a count of int.MaxValue-1 stops; a count of int.MaxValue wraps to int.MinValue |
| `ConsumerProperties.FailureKeepsUnparsable` | RedisMessagePipeline/Consumer/RedisPipelineConsumer.cs:151-165 | unparsable state text is left unchanged by a failure |
| `ConsumerProperties.FailingPollAtCount` | RedisMessagePipeline/Consumer/RedisPipelineConsumer.cs:145-159 | one failing poll at count j below the limit keeps the queue and moves the state to j+1 or to "STOPPED" at the limit |
| `ConsumerProperties.FailingRun` | RedisMessagePipeline/Consumer/RedisPipelineConsumer.cs:145-165 | a run of failing polls whose successive failure states are never the sentinel before its last poll hands the same head to the handler each time, keeps the queue, and its i-th poll leaves the state of the (i+1)-th failure |
| `ConsumerProperties.CountStatesChain` | RedisMessagePipeline/Consumer/RedisPipelineConsumer.cs:155-159 | below the limit the count texts j, j+1, ..., j+n each follow from the one before by one failure, and none but the last is the sentinel |
| `ConsumerProperties.EscalateFrom` | RedisMessagePipeline/Consumer/RedisPipelineConsumer.cs:151-165 | from count j, the i-th consecutive failure retries the same head and leaves count j+i+1, or "STOPPED" once that reaches MaxRetries |
| `ConsumerProperties.EscalationFromZero` | RedisMessagePipeline/Consumer/RedisPipelineConsumer.cs:155-159 | from "0" with MaxRetries k >= 1, an always-failing handler stops the pipeline after exactly k failures |
| `ConsumerProperties.EscalationFromAbsent` | RedisMessagePipeline/Consumer/RedisPipelineConsumer.cs:151-159 | from an absent state with k >= 2, an always-failing handler also stops it after exactly k failures |
| `ConsumerProperties.AbsentRunStates` | RedisMessagePipeline/Consumer/RedisPipelineConsumer.cs:151-159 | from an absent state an always-failing run writes "1" first and then the counts 2, 3, ..., with the sentinel once the count reaches MaxRetries |
| `ConsumerProperties.EscalationFromAbsentLimitOne` | RedisMessagePipeline/Consumer/RedisPipelineConsumer.cs:151-159 | with k = 1 an absent state takes two failures: "1" first, then "STOPPED" |
| `ConsumerProperties.StoppedBlocksRun` | RedisMessagePipeline/Consumer/RedisPipelineConsumer.cs:70-74 | while stopped, every poll of a run reports false and leaves the store exactly as it was |
| `ConsumerProperties.DrainInOrder` | RedisMessagePipeline/Consumer/RedisPipelineConsumer.cs:76-88 | an always-succeeding handler receives the queued messages in FIFO order and they leave from the head |
| `Admin.Pushed` | RedisMessagePipeline/Admin/RedisPipelineAdmin.cs:35-41 | the queue grows by one, keeps its old elements as prefix and ends with the payload; state and failure are unchanged |
| `Admin.Stopped` | RedisMessagePipeline/Admin/RedisPipelineAdmin.cs:46-52 | the state becomes the sentinel; queue and failure are unchanged |
| `Admin.Cleaned` | RedisMessagePipeline/Admin/RedisPipelineAdmin.cs:57-81 | clean succeeds exactly when the lock was acquired, otherwise raises the lock error; on success all three slots are empty |
| `Admin.Resumed` | RedisMessagePipeline/Admin/RedisPipelineAdmin.cs:86-120 | resume succeeds exactly when the lock was acquired and the state is stopped; otherwise it raises the lock error without the lock and the not-stopped error with it; on success the state is no longer stopped, the failure is kept and exactly min(skip, queue length) head messages are dropped |
| `Admin.Admin.Push` | RedisMessagePipeline/Admin/RedisPipelineAdmin.cs:35-41 | push changes the store exactly as `Pushed` says, without any lock |
| `Admin.Admin.Stop` | RedisMessagePipeline/Admin/RedisPipelineAdmin.cs:46-52 | stop changes the store exactly as `Stopped` says, without any lock |
| `Admin.Admin.Clean` | RedisMessagePipeline/Admin/RedisPipelineAdmin.cs:57-81 | clean's error and new store are those of `Cleaned`; on error the store is unchanged |
| `Admin.Admin.Resume` | RedisMessagePipeline/Admin/RedisPipelineAdmin.cs:86-120 | resume's error and new store are those of `Resumed`; on error the store is unchanged |
| `AdminProperties.PushAppendsAtTail` | RedisMessagePipeline/Admin/RedisPipelineAdmin.cs:35-41 | push appends the payload at the tail and leaves state and failure unchanged |
| `AdminProperties.PushAllAppends` | RedisMessagePipeline/Admin/RedisPipelineAdmin.cs:35-41 | successive pushes append the payloads in order and change nothing else |
| `AdminProperties.PushThenDrainIsFifo` | RedisMessagePipeline/Consumer/RedisPipelineConsumer.cs:76-88 | payloads pushed onto an empty running queue reach a succeeding handler in push order and the queue ends empty |
| `AdminProperties.StopStopsIdempotently` | RedisMessagePipeline/Admin/RedisPipelineAdmin.cs:46-52 | stop makes the state "STOPPED" from any state, keeps queue and failure, and stopping twice equals stopping once |
| `AdminProperties.CleanWithoutLock` | RedisMessagePipeline/Admin/RedisPipelineAdmin.cs:66-70 | clean without the lock raises the lock error |
| `AdminProperties.CleanWipesIdempotently` | RedisMessagePipeline/Admin/RedisPipelineAdmin.cs:72-77 | clean with the lock leaves all three slots absent, and a second clean gives the same result |
| `AdminProperties.ResumeWithoutLock` | RedisMessagePipeline/Admin/RedisPipelineAdmin.cs:95-99 | resume without the lock raises the lock error |
| `AdminProperties.ResumeRequiresStopped` | RedisMessagePipeline/Admin/RedisPipelineAdmin.cs:101-106 | resume of a pipeline that is not stopped raises the not-stopped error |
| `AdminProperties.ResumeRefusedWhileCounting` | RedisMessagePipeline/Admin/RedisPipelineAdmin.cs:101-106 | resume while the state holds a retry count is refused |
| `AdminProperties.ResumeFromStopped` | RedisMessagePipeline/Admin/RedisPipelineAdmin.cs:108-116 | resume from "STOPPED" drops min(skip, queue length) head messages, sets state "0" and keeps the failure record |
| `AdminProperties.ResumeExamples` | RedisMessagePipeline/Admin/RedisPipelineAdmin.cs:108-116 | from [m1, m2, m3] stopped, skip 1 gives [m2, m3] and skip 0 keeps the queue, both with state "0" |
| `AdminProperties.ResumeUnblocksPoll` | RedisMessagePipeline/Admin/RedisPipelineAdmin.cs:113 | after a successful resume, the next locked poll on a non-empty queue reaches the handler with the new head |
| `AdminProperties.StopBlocksUntilResume` | RedisMessagePipeline/Consumer/RedisPipelineConsumer.cs:70-74 | after Stop no poll changes anything until Resume; the poll after Resume(skip) handles message number skip |

## Left out

- The RedLock algorithm, lock expiry and cross-process interleaving are not modelled. The lock is a boolean input, and each poll or admin command is one atomic step. Push and Stop take no lock, so they can interleave with a poll's critical section. That interleaving is not modelled.
- Each StackExchange.Redis command or transaction is one atomic update of the fields. Network errors and server errors are not modelled.
- The failure record is a Dafny datatype. Its JSON serialisation is not modelled.
- The timestamp (`DateTime.UtcNow.Ticks`) is a parameter. `Timestamp` is an unbounded `int`, not a 64-bit `long`.
- Logging, `Task.Delay`, the pull interval, the lock timing settings and cancellation tokens are not modelled. Each wait is recorded as a flag in `Execute`'s result. Cancellation is the end of the input sequence.
- The handler is not modelled as code. Its outcome for each poll is an input.
- Dependency injection, the factory, the settings classes and the demo program are not modelled.
- `StateCodec.TryParseInt`: `int.TryParse` is modelled for an optional sign followed by ASCII digits. Leading and trailing white space and culture-specific signs are not modelled.
- `StateCodec.FormatInt`: formatting uses the invariant culture's minus sign. Culture-specific formatting is not modelled.
- `Admin.Resumed`: `skip` is a natural number, while `ResumeAsync` takes an `int`. A negative skip sends a negative count to the store's list pop inside the transaction, and the store's answer to that is not part of this model.
- `Admin.Admin.Resume`: `skip` is a natural number. A negative skip sends a negative count to the store's list pop, and the store's answer to that is not part of this model.
