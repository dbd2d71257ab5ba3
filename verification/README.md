# A verified model of the Pub/Sub broker's core

The broker keeps one queue for each subscription: a bounded channel of waiting messages, and a map
of leased ones under their ack IDs. Around these queues it publishes and fans out, evaluates
subscription filters, leases batches in ordering-key order, redelivers what was not acknowledged in
time, forwards dead letters, takes snapshots and seeks to them, and pushes batches to streaming
consumers in turn. This project models that core in Dafny and proves what it is meant to guarantee,
over whole runs of any length.

`dafny verify dfyconfig.toml` checks everything.

## How it is built

Operations that change state in the program are methods here, over classes with mutable fields and
records on the heap. Each is proved to compute a function on values, and the results are proved about
these functions and about runs of them.

- Text, FilterSyntax, FilterParser, FilterPrinter, FilterLaws: the filter evaluator, which evaluates while
  it reads; the parser that it refines; a printer that the parser undoes; and what filters mean, in terms of
  their texts.
- QueueModel, SubscriptionQueue, PendingRepository: queues as values in closed form, and the queue
  class and repository that compute them. The repository's `Valid` says that no two queues share a
  record; its methods leave all other queues and their records unchanged.
- QueueLaws, QueueRuns, OrderingRuns, DeliveryRuns, NackRuns: what single operations do, and what
  holds over every run of a queue: conservation, finality, exclusive leases, one lease for each
  ordering key, order within a key, delivery counting against leases and against nacks and deadlines, and
  bounded redelivery. SampleRuns has concrete runs in which a promise is not kept.
- MessageLog, BrokerModel, Usecases: the message log, the whole broker as a value, and the use cases
  as a class over the repositories, each proved to do to the whole broker what the model says.
- BrokerRuns, ServiceRuns, BrokerSafety, AnswerRuns, StoreRuns, SnapshotRuns, FilterRuns, DeadLetters,
  Publishing: runs of the whole broker. Every call of the use cases is an action of such a run, and
  each run projects to a run of every queue, so all results about queues hold everywhere; on top of
  it, separation of queues, what consumers get, the log, restoring snapshots, filters, the dead-letter
  hand-off and exact fan-out. SampleBrokers and SampleDeadLetters have four concrete runs.
- Dispatcher: round-robin over bounded consumer channels.
- PullLaws, LeaseLaws, PublishLaws, SeekLaws: what each use case does, said of the states before and after
  in plain terms, with the numbers written out, and proved of the functions above. The calls in ServiceRuns
  promise these laws. Sublists has positions in a list.

Conventions. Bytes are characters, a Go string is a `string`. Times are integers with 0 for the zero
`time.Time`, and the clock reads a date later than the longest duration. `sync.Map.Range` and the
listing of subscriptions visit in an arbitrary order, which is an argument (`order`, `names`) that
lists every key once. Ack IDs are arguments or fresh choices that were never used before: they are
random in the program. Runs of the broker start anywhere the invariants hold, for instance with empty
queues and an empty log (`StoreRuns.StartsConsistent`). The 32-bit delivery attempt wraps around as
in Go. The queue size is any natural number.

## Where the code differs from what its documentation says

- The API text (gen/google/pubsub/v1/pubsub.pb.go:3705-3720) counts one attempt for each nack and each ack
  deadline that passes, and promises zero without a dead-letter policy. The code counts leases, with or
  without a policy (internal/api/mapper/snapshot.go:42). So it does not count a nack that is followed by
  another action before the next Pull (`SampleRuns.NackOverridden`), a nack of a message that a Pull has
  put back (`SampleRuns.IgnoredNack`), or a deadline that had passed when an extension or a nack replaced
  it (`SampleRuns.LateAction`). `NackRuns.AttemptAsDocumented` says that these are all the differences
  under a policy, up to the 32 bits.
- The API text promises that only messages that match the filter are delivered
  (gen/google/pubsub/v1/pubsub.pb.go:2665-2668). A Seek and the forwarding of dead letters do not look
  at the filter of the subscription: `SampleBrokers.SeekBreaksFilter`. Without them the promise is kept
  (`FilterRuns.FilteredAlways`); with them it is kept exactly when all the messages they bring pass
  (`FilterRuns.SeekKeepsFilter`, `FilterRuns.DeadLettersKeepFilter`).
- A Pull that stops at its maximum after skipping a message of an ordering key may put that message
  behind a later one of the same key: `OrderingRuns.RotatesKeyOrder`, and exactly when in
  `OrderingRuns.PullKeepsKeyOrder`.
- Expired leases that find no room are lost, for the result of Enqueue is ignored:
  `SampleRuns.PullLoses`, and exactly how many in `QueueLaws.RequeueLosesOverflow`.
- A message that is still on its way to its subscription when a snapshot is taken is missing from it:
  `SampleBrokers.SnapshotMisses`, and exactly when in `SnapshotRuns.OnTheirWayAreMissed`.
- The comment on `HandleDeadLetters` says that it acknowledges the messages that it forwards. This ends
  leases only (`DeadLetters.SourceIsReleased`): a message whose lease a later Pull took back, while the
  hand-off of its batch was still to come, waits at the source as before and can be forwarded again:
  `SampleDeadLetters.DeadStays`, and exactly when in `BrokerSafety.DeadIdAtSource`.
- A Seek lists the log and then replaces the queue, with no lock around the two. A message that is published
  and arrives in between is wiped although the Seek wants it: `SampleBrokers.SeekWipes`, and exactly when in
  `SnapshotRuns.LateMessagesAreLost`.
- Listing a topic scans for a prefix, so it returns the messages of a topic whose name continues its own
  with a slash, and such names are accepted: `MessageLogs.NestedTopicLeaks`, and exactly when in
  `MessageLogs.KeyUnderPrefix`. Between names of the usual form `projects/P/topics/T` it cannot happen
  (`MessageLogs.SameDepthSeparates`).
- A message is dead-lettered at its M-th lease, but not after 2^31 leases, when the 32-bit counter is
  negative: `SampleRuns.CounterWraps`, and exactly when in `AnswerRuns.BoundedAnswers`.
- When the hand-off of dead letters fails half way, copies that were sent stay
  (`DeadLetters.ForwardStopsAt`) although the messages stay leased at the source
  (`DeadLetters.SourceIsReleased`), from where they come again.
- The comment on ListAll asks for a mutex that no caller holds.
- The filter syntax in the comment on `matchesFilter` lacks the order comparisons and does not say
  that malformed filters are accepted. They have a meaning (`FilterPrinter.CanonicalMeansTheSame`).

## Model

| member | source | states |
|---|---|---|
| FilterParser.MatchesFilter | internal/core/usecases/filter.go:21-28 | For every filter text, malformed ones included, and all attributes, the evaluator that evaluates while it reads answers what parsing the text alone and evaluating its tree answers; the empty filter lets everything through. What the trees mean is in the rows of FilterLaws. |
| FilterParser.Evaluator.EvalOr | internal/core/usecases/filter.go:98-113 | It terminates, leaves the position where the parser of the text alone leaves it, whatever the attributes are, and answers the meaning of the tree parsed there; the restored position of the loop included. |
| FilterParser.Evaluator.EvalAnd | internal/core/usecases/filter.go:116-131 | The same for AND expressions. |
| FilterParser.Evaluator.EvalNot | internal/core/usecases/filter.go:134-145 | The same for NOT and `-`, which may be stacked. |
| FilterParser.Evaluator.EvalPrimary | internal/core/usecases/filter.go:148-174 | The same for parenthesised expressions, `hasPrefix` and attribute tests; anything else is false. |
| FilterParser.Evaluator.EvalHasPrefix | internal/core/usecases/filter.go:158-168 | The same for a prefix test; the word before the dot is not looked at, and missing punctuation is forgiven. |
| FilterParser.Evaluator.EvalField | internal/core/usecases/filter.go:176-188 | The same for what follows the word `attributes`. |
| FilterParser.Evaluator.EvalComparison | internal/core/usecases/filter.go:187-209 | The same for a comparison; without an operator it is false, and only `!=` holds of a missing key. |
| FilterParser.Evaluator.ReadText | internal/core/usecases/filter.go:64-85 | The content of a string literal with its escapes undone, and the position after it; a missing closing quote is forgiven. |
| FilterParser.Evaluator.ReadWord | internal/core/usecases/filter.go:50-61 | The identifier after the spaces, and the position after it. |
| FilterParser.Evaluator.ReadComparison | internal/core/usecases/filter.go:212-242 | The comparison operator that is read, if any, and the position after it; a lone `!` is none and is not consumed. |
| FilterSyntax.ParseOr | internal/core/usecases/filter.go:98-113 | Total on every text and position: it never moves back nor past the end. Recursion falls in the lexicographic measure (input left, rank of the rule). |
| FilterSyntax.OrTailStops | internal/core/usecases/filter.go:100-111 | The loop over OR advances by each operator it finds, although it restores its position at the end, and ends only where none follows. |
| FilterSyntax.ParseAnd | internal/core/usecases/filter.go:116-131 | Total, within the text. |
| FilterSyntax.AndTailStops | internal/core/usecases/filter.go:118-129 | The same for AND. |
| FilterSyntax.ParseNot | internal/core/usecases/filter.go:134-145 | Total, within the text. |
| FilterSyntax.ParsePrimary | internal/core/usecases/filter.go:148-210 | Total, within the text. |
| FilterPrinter.StringBodyUndoesEscape | internal/core/usecases/filter.go:70-84 | Reading a literal undoes the escaping of quotes and backslashes, for arbitrary bytes. |
| FilterPrinter.QuoteReadsBack | internal/core/usecases/filter.go:64-85 | A quoted text anywhere in a filter is read back as that text, to the byte after its closing quote. |
| FilterPrinter.IdentReadsBack | internal/core/usecases/filter.go:50-61 | A key is read back whole where no key byte follows it. |
| FilterPrinter.NotParses | internal/core/usecases/filter.go:134-145 | A negation, printed anywhere in a filter, is parsed back to its tree. |
| FilterPrinter.AndParses | internal/core/usecases/filter.go:116-131 | A conjunction, printed with parentheses only where NOT over AND over OR asks for them, is parsed back to its left-associated tree. |
| FilterPrinter.OrParses | internal/core/usecases/filter.go:98-113 | The same for a disjunction. |
| FilterPrinter.RoundTrip | internal/core/usecases/filter.go:98-210 | Parsing the minimal text of any tree whose keys are made of key bytes gives back that tree and reads the text to its end: precedence, associativity and quoting are those the parser implements. |
| FilterPrinter.DenotedTrees | internal/core/usecases/filter.go:98-210 | The trees that some filter text denotes are exactly those whose keys are made of key bytes. |
| FilterPrinter.CanonicalMeansTheSame | internal/core/usecases/filter.go:21-28 | Every filter means, for all attributes, the same as its canonical text, which is read to its end and is its own canonical text. |
| FilterParser.Evaluator.SkipSpaces | internal/core/usecases/filter.go:36-40 | The position moves over the spaces, as far as the text has any. |
| FilterParser.Evaluator.ConsumeByte | internal/core/usecases/filter.go:88-95 | After the spaces the byte is taken if it is there; the answer says so. |
| FilterSyntax.ComparisonsAgree | internal/core/usecases/filter.go:194-207 | Of a present key exactly one of `<`, `=` and `>` holds, byte by byte; `<=`, `>=` and `!=` are made of these, and a missing key satisfies only `!=`. |
| Text.LessIs | internal/core/usecases/filter.go:199-207 | The comparison of texts is the order of a dictionary: one comes before the other if it is a proper prefix of it, or has the smaller byte where they first differ. |
| FilterLaws.PlainIsKey | internal/core/usecases/filter.go:50-61 | ASCII letters, digits, `_` and `-` make up keys. |
| FilterLaws.HasMeans | internal/core/usecases/filter.go:176-185 | The filter `attributes:k` lets through exactly the messages that have the attribute k. |
| FilterLaws.HasPrefixMeans | internal/core/usecases/filter.go:158-168 | The filter `hasPrefix(attributes.k, "v")` lets through exactly those whose attribute k starts with v. |
| FilterLaws.ComparisonMeans | internal/core/usecases/filter.go:187-209 | `attributes.k = "v"` asks for an equal value, `!=` for another or none, and the four order comparisons for a value that comes before or after v in a dictionary, or is equal. |
| FilterLaws.CombinationsMean | internal/core/usecases/filter.go:98-145 | `(f) AND (g)` lets through what both filters do, `(f) OR (g)` what one of them does, `NOT (f)` and `-(f)` what f does not, for the canonical texts of all filters. |
| FilterLaws.PrintedMeans | internal/core/usecases/filter.go:98-145 | The same without the parentheses that precedence makes unnecessary. |
| FilterLaws.EscapeIs | internal/core/usecases/filter.go:70-84 | In a literal exactly quotes and backslashes have a backslash before them. |
| FilterLaws.BlanksBefore | internal/core/usecases/filter.go:21-40 | White space before a filter does not matter, and the empty filter lets everything through. |
| SubscriptionQueues.SubscriptionQueue.Enqueue | internal/core/storage/memory/queue.go:29-40 | The record goes to the tail and the notify token is set if there is room; otherwise nothing changes and the answer is false. |
| SubscriptionQueues.SubscriptionQueue.TryDequeue | internal/core/storage/memory/queue.go:48-55 | Takes the head of the channel, or answers null when it is empty. |
| SubscriptionQueues.SubscriptionQueue.ListInFlight | internal/core/storage/memory/queue.go:77-84 | The leased records, in the order in which the map happens to be visited, each once. |
| SubscriptionQueues.SubscriptionQueue.ClearInFlight | internal/core/storage/memory/queue.go:87-92 | No lease is left; the channel stays. |
| SubscriptionQueues.SubscriptionQueue.RequeueExpired | internal/core/storage/memory/queue.go:95-106 | Although it deletes while it ranges, for every order of the visit: the leases whose deadline has passed are gone, and their records, without deadline, follow the channel in the order of the visit as far as there is room. |
| PendingRepositories.LeaseEligible | internal/core/storage/repositories/pending_message.go:81-120 | The loop of Pull, over mutable records: it stops where the closed form says, has leased exactly what that form selects, and has set the others aside. |
| PendingRepositories.LeaseBatch | internal/core/storage/repositories/pending_message.go:79-128 | Pull after expiry computes the closed form `LeaseFrom` of queue, maximum, deadline and ordering, on every input and on the error path. |
| PendingRepositories.PendingMessageRepository.Pull | internal/core/storage/repositories/pending_message.go:71-128 | Pull does to the named queue what the closed form says, keeps every queue valid, and leaves all other queues and their records as they are; a missing queue is an error. `PullLaws.PullHandsOut` says in plain terms what the closed form is. |
| PendingRepositories.PendingMessageRepository.Enqueue | internal/core/storage/repositories/pending_message.go:52-67 | The copies go to the channel in order until it is full; an error tells that not all did. No other queue changes. |
| PendingRepositories.PendingMessageRepository.ListAll | internal/core/storage/repositories/pending_message.go:133-161 | Returns every record, waiting and leased, and leaves the channel as it was; no other queue changes. |
| PendingRepositories.PendingMessageRepository.ReplaceAll | internal/core/storage/repositories/pending_message.go:165-183 | Nothing of the old queue is left; the new copies are enqueued as by Enqueue. No other queue changes. |
| PendingRepositories.PendingMessageRepository.AcknowledgeByAckID | internal/core/storage/repositories/pending_message.go:186-195 | Exactly these leases are gone, unknown IDs are ignored, and no other queue changes. |
| PendingRepositories.PendingMessageRepository.UpdateDeadline | internal/core/storage/repositories/pending_message.go:198-210 | Exactly these leases get the new deadline, in place; no other queue changes. |
| PendingRepositories.KeysInFlight | internal/core/storage/repositories/pending_message.go:82-89 | The ordering keys of the leases, without the empty one, for every order of the visit. |
| PendingRepositories.Drain | internal/core/storage/repositories/pending_message.go:139-146 | Takes all records out of the channel in order; the leases stay. |
| PendingRepositories.EnqueueNew | internal/core/storage/repositories/pending_message.go:57-66 | Copies of the entities go to the tail until one is refused; an error then, and those before it stay. |
| PendingRepositories.LeaseTurn | internal/core/storage/repositories/pending_message.go:107-119 | A turn of the loop that leases: the record is handed out, or sent back if it cannot be mapped, as the closed form says. |
| PendingRepositories.SkipTurn | internal/core/storage/repositories/pending_message.go:99-102 | A turn that sets a record aside. |
| PendingRepositories.PendingMessageRepository.InitSubscription | internal/core/storage/repositories/pending_message.go:31-33 | An empty queue under the name, whatever was there; no other queue changes. |
| QueueModel.Examined | internal/core/storage/repositories/pending_message.go:94-98 | Pull examines messages up to the first point where enough are leased, none is left, or the next cannot be mapped, and no further. |
| QueueLaws.RequeueKeeps | internal/core/storage/memory/queue.go:95-106 | Expiry keeps a queue well formed; what comes back are the expired records, each once, and as many as fit. |
| QueueLaws.RequeueLosesOverflow | internal/core/storage/memory/queue.go:95-106 | Expiry loses exactly max(0, channel + expired - capacity) records, for the failed Enqueue is ignored; so it keeps all records if and only if there is room for the expired ones. |
| QueueLaws.Partition | internal/core/storage/repositories/pending_message.go:94-125 | Leased and skipped messages are all the messages examined, each once. |
| QueueLaws.PullTakesFirstEligible | internal/core/storage/repositories/pending_message.go:71-128 | The batch is the first `max` of the key-less messages and the first messages of unleased keys; the unexamined suffix, followed by the skipped messages in order, is left; exactly the batch enters the leases; sending skipped messages again never overflows, and the mapping failure never happens. |
| QueueLaws.LeaseKeeps | internal/core/storage/repositories/pending_message.go:71-128 | Pull keeps every record, each once; what it leases was waiting, carries a deadline, and no lease it finds is touched. |
| QueueLaws.ReleasedAre | internal/core/storage/memory/queue.go:97-105 | The records taken back are the expired ones, each once, as they were except for the deadline. |
| PullLaws.TidyIs | internal/core/entities/message.go:35-82 | The invariant of a queue, with the limits as numbers: 10 MiB of data, 100 attributes, keys of 256 bytes that do not start with `goog.`, values of 1024, ordering keys of 1024. |
| PullLaws.PullHandsOut | internal/core/storage/repositories/pending_message.go:71-128 | For every maximum, ordering and order of the visit a Pull succeeds. It takes back the leases whose deadline has passed, as far as they fit; hands out the first `max` messages that no leased or earlier message of their ordering key holds up; leases each until now plus the ack deadline, in the answer and in flight, counted once more; leaves all other leases as they are; and the others wait on in order, those not examined first. |
| PullLaws.HandedOutAre | internal/core/storage/repositories/pending_message.go:107-109 | Each message handed out waited, or its lease had passed its deadline; it keeps its message and ack ID and is leased until now plus the ack deadline. |
| PullLaws.UnorderedHandsOut | internal/core/storage/repositories/pending_message.go:94-120 | Without ordering the answer is the first `max` messages of the channel, with the leases taken back behind it, or all of them. |
| PullLaws.HeadIsHandedOut | internal/core/storage/repositories/pending_message.go:94-120 | The message that waits first is handed out by every Pull of at least one, unless its ordering key is leased: none that can be published is too large for it. |
| PullLaws.HeldAlways | internal/core/storage/repositories/pending_message.go:77-109 | Over any run a leased message is held until its deadline, if its deadline is not set again and no Pull comes later than that. |
| QueueRuns.InvAlways | internal/core/storage/memory/queue.go:14-18 | In every state of every run no record is held twice, waiting records have no deadline, leased ones have one and are found under their ack ID, and the channel is within its capacity. |
| QueueRuns.StepBalances | internal/core/storage/repositories/pending_message.go:52-210 | Each operation keeps that invariant and the books: what is held afterwards is what was held, without what left or was lost, with what entered. |
| QueueRuns.Conservation | internal/core/storage/repositories/pending_message.go:52-210 | Over any run the live ack IDs are those held at first, plus those that found room, minus those acknowledged while leased or replaced by a Seek and those lost; something is lost if and only if some Pull finds less room than expired leases. |
| QueueRuns.RoomForAll | internal/core/storage/memory/queue.go:95-106 | If no Enqueue takes channel and leases together beyond the capacity, nothing is ever lost. |
| QueueRuns.GoneForGood | internal/core/storage/repositories/pending_message.go:165-195 | An issued ack ID that is held no more is never held again. |
| QueueRuns.Finality | internal/core/storage/repositories/pending_message.go:165-195 | An ack ID acknowledged while leased, live when a Seek replaced the queue, or lost, is in no later Pull of any run, and acknowledging or extending it again changes nothing. |
| QueueRuns.LeaseEnded | internal/core/storage/memory/queue.go:95-106 | A leased record is back in the channel only if a Pull in between found its deadline, after any extension, passed. |
| QueueRuns.ExclusiveLease | internal/core/storage/repositories/pending_message.go:77-109 | If the same ack ID is handed out twice, some Pull after the first and not after the second came later than the deadline its lease had at that moment. |
| QueueRuns.DeliveredWasFree | internal/core/storage/repositories/pending_message.go:77-109 | A message that is handed out was waiting, or its lease had expired. |
| OrderingRuns.PullKeepsKeyExclusive | internal/core/storage/repositories/pending_message.go:81-109 | A Pull in order never leases a message whose key is leased, nor two of one key. |
| OrderingRuns.OneLeasePerKey | internal/core/storage/repositories/pending_message.go:81-109 | On an ordered subscription the keys of leased messages are pairwise distinct in every state of every run. |
| OrderingRuns.PullKeepsKeyOrder | internal/core/storage/repositories/pending_message.go:94-125 | A Pull in order keeps the messages of a key in order, the leased one first, if and only if it skips none of the key or leaves none of it unexamined; it leases at most one, and none if the key is leased. |
| OrderingRuns.LargePullKeepsOrder | internal/core/storage/repositories/pending_message.go:94-125 | A Pull of at least as many messages as wait keeps the order of every key. |
| OrderingRuns.RotatesKeyOrder | internal/core/storage/repositories/pending_message.go:122-125 | Otherwise it may not: a concrete queue on which a Pull of one message puts a later message of a key before an earlier one. |
| OrderingRuns.LeasedInOrder | internal/core/storage/repositories/pending_message.go:81-125 | Over any run without Seek and expiry whose Pulls keep the order, the messages of a key are handed out exactly in order of arrival; all but the last one handed out were acknowledged, and that one was or is still leased. |
| OrderingRuns.NextOnlyAfterAck | internal/core/storage/repositories/pending_message.go:81-105 | When a message of a key is handed out, all those handed out before were acknowledged. |
| OrderingRuns.FirstOfKey | internal/core/storage/repositories/pending_message.go:99-105 | Of the messages of one key the first is leased, unless the key is, and the others are skipped in order. |
| DeliveryRuns.AttemptsAreLeases | internal/core/storage/repositories/pending_message.go:107-109 | Over any run a waiting record's attempt is the number of its leases that ended, and a leased record's one more, as a 32-bit counter. `NackRuns` compares this with nacks and missed deadlines. |
| DeliveryRuns.HandedOutAttempt | internal/core/storage/repositories/pending_message.go:107-109 | A message handed out carries the number of times it was handed out, this one included. |
| DeliveryRuns.KeptIsBelow | internal/core/usecases/subscriber.go:171-178 | Of the leases of a message on one queue, those that pass the test of the dead-letter policy are those whose 32-bit counter is below the maximum. |
| DeliveryRuns.BoundedRedelivery | internal/core/usecases/subscriber.go:171-178 | Of the leases of a message on one queue at most M - 1 pass the test of a policy with maximum M, if and only if there are fewer than 2^31. `AnswerRuns.BoundedAnswers` says this of the answers of the broker. |
| DeliveryRuns.WrapHandsOutAgain | internal/core/storage/repositories/pending_message.go:108 | In numbers: among 1 to 2^31, taken as 32-bit counters, M are below M. `SampleRuns.CounterWraps` is a run in which it happens. |
| DeliveryRuns.AttemptsRunOut | internal/core/usecases/subscriber.go:171-178 | From each lease to any later one the deliveries left, M minus the attempt floored at 0, become fewer until none is left. |
| NackRuns.NacksAndMisses | gen/google/pubsub/v1/pubsub.pb.go:3705-3717 | Over any run the nacks of a message (all zero-duration calls once it was handed out, leased or not) and its passed ack deadlines (noticed by a Pull or by a late extension or nack) are as many as its ended leases, plus what the program does not count: overridden nacks, nacks of a message that was not leased, and passed deadlines that were replaced; plus one for a nack that is not honoured yet. |
| NackRuns.AttemptAsDocumented | gen/google/pubsub/v1/pubsub.pb.go:3705-3720 | The attempt that a message is handed out with is the documented one (1 + nacks + passed deadlines under a policy, 0 without) if and only if there is a policy, no nack was overridden, none came when the message was not leased, no passed deadline was replaced, and the number fits into 32 bits; without a policy, only when the counter has wrapped to 0. |
| SampleRuns.NackOverridden | gen/google/pubsub/v1/pubsub.pb.go:3708-3712 | Runs in which a nack is followed by a second nack, or by an extension whose deadline passes, before a Pull: the attempt is 2, not 3. |
| SampleRuns.LateAction | gen/google/pubsub/v1/pubsub.pb.go:3708-3714 | Runs in which an extension or a nack comes when the deadline has passed: the attempt is 2, not 3. |
| SampleRuns.IgnoredNack | gen/google/pubsub/v1/pubsub.pb.go:3708-3712 | A run in which a nack comes when a Pull has put the message back: the attempt is 2, not 3. |
| SampleRuns.PullLoses | internal/core/storage/memory/queue.go:95-106 | A run in which a Pull loses a lease: capacity one, an expired lease, and another message in the channel. |
| SampleRuns.CounterWraps | internal/core/storage/repositories/pending_message.go:107-109 | A run of 2^31 leases after which the attempt is negative and the dead-letter test has let M leases pass. |
| MessageLogs.MessageIDs | internal/core/usecases/ids.go:12-14 | Different counters give different message IDs, and no ID contains a slash. |
| MessageLogs.MessageIDIs | internal/core/usecases/ids.go:12-14 | The ID is "msg-" and digits whose decimal value is the counter, without leading zeros. |
| MessageLogs.KeyUnderPrefix | internal/core/storage/repositories/message.go:50-60 | Listing a topic sees the messages of another one if and only if its prefix is a prefix of the other's. |
| MessageLogs.KeyInjective | internal/core/usecases/publisher.go:53 | Two messages are stored under the same key only if topic and ID are the same. |
| MessageLogs.SameDepthSeparates | internal/core/storage/repositories/message.go:50-60 | Between topics with equally many slashes, such as `projects/P/topics/T`, that happens only if they are the same topic. |
| MessageLogs.NestedTopicLeaks | internal/core/storage/repositories/message.go:50-60 | Without that condition it happens: a topic whose name continues the other's prefix. |
| MessageLogs.MessageRepository.ListMessagesByTopic | internal/core/storage/repositories/message.go:50-71 | It returns the messages under the prefix in the order of the visit, or an error if one cannot be mapped. |
| StoreRuns.ListingIsExact | internal/core/storage/repositories/message.go:50-71 | In every consistent broker a listing returns exactly the messages stored under the topic, each once, and none of any other topic. |
| StoreRuns.LoggedAdds | internal/core/usecases/publisher.go:43-57 | Publishing stores exactly its messages under the topic; everything stored before, under any topic, is still there unchanged. |
| StoreRuns.ConsistentAlways | internal/core/usecases/publisher.go:36-88 | In every state of every run the log has lost and changed nothing, and every message held by a queue or on its way to it is stored under the subscription's topic. |
| StoreRuns.ApplyCarries | internal/core/storage/repositories/pending_message.go:52-210 | No operation of a queue invents or alters a message. |
| StoreRuns.CreationKeepsConsistent | internal/core/usecases/subscriber.go:46-59 | Creating topics and subscriptions keeps the invariant of the log and the queues, so that a run may go on after it. |
| Publishing.PublishAssignsIds | internal/core/usecases/publisher.go:36-57 | Publish fails exactly for a missing topic; the IDs it returns, in order, are all different and were never used, and each message is stored with its ID and publish time. |
| Publishing.PublishFansOut | internal/core/usecases/publisher.go:59-85 | It starts one fan-out with all messages for each subscription of the topic, and no other. |
| Publishing.FanOutRunsOnce | internal/core/usecases/publisher.go:68-85 | Over any run a fan-out is pending until it has run, and runs as often as it was started. |
| Publishing.MatchingInOrder | internal/core/usecases/publisher.go:71-81 | It carries exactly the messages whose attributes satisfy the filter, in publish order. |
| Publishing.FanOutIsExact | internal/core/usecases/publisher.go:70-83 | The channel grows by new copies of the longest first part of them for which there is room; leases and all other queues stay as they are. |
| PublishLaws.CreateTopicMeans | internal/core/usecases/topic.go:26-37 | A topic is added unless it exists; nothing else changes. |
| PublishLaws.CreateSubscriptionMeans | internal/core/usecases/subscriber.go:46-59 | A subscription with an empty queue of the configured size is added if its topic exists and its name is free; otherwise there is an error and no change. |
| PublishLaws.PublishMeans | internal/core/usecases/publisher.go:36-88 | Each message gets the next number as its ID and the current time, is stored under topic and ID next to all that was there, and one fan-out with all of them starts for each subscription of the topic, with its filter. |
| PublishLaws.FanOutMeans | internal/core/usecases/publisher.go:70-83 | The channel gets, at its end and in order, a new copy of each message that the filter lets through, or as many as fit; everything else is as it was. |
| PublishLaws.NothingToHandOff | internal/core/usecases/subscriber.go:159-180 | Without a policy, or without messages that have used up its attempts, the whole batch is answered and nothing changes. |
| PublishLaws.HandOffNeedsRoom | internal/core/usecases/subscriber.go:196-218 | Otherwise the hand-off succeeds if and only if the source has a queue and each subscription of the dead-letter topic has one with room for all these messages. |
| PublishLaws.DeadLetterMoves | internal/core/usecases/subscriber.go:181-215 | On success each of them is stored under the dead-letter topic as a new message with the current time and otherwise the same, is pending once in every subscription of that topic, and is not leased at the source. |
| PublishLaws.LeasesAfterHandOff | internal/core/usecases/subscriber.go:200-215 | On success exactly their leases have left the source; on an error no lease of any queue has changed and nothing has left a channel. |
| Usecases.BrokerService.Publish | internal/core/usecases/publisher.go:36-88 | Publish, over its repositories, does to the whole broker what the model says, for every order of subscriptions. |
| Usecases.BrokerService.RunFanOut | internal/core/usecases/publisher.go:70-83 | The same for the goroutine of one subscription. |
| Usecases.BrokerService.Pull | internal/core/usecases/subscriber.go:130-140 | The same for Pull, with the subscription's ack deadline and ordering; `LeaseLaws.PullMeans` says what that is. |
| Usecases.BrokerService.Acknowledge | internal/core/usecases/subscriber.go:142-147 | The same for Acknowledge. |
| Usecases.BrokerService.ModifyAckDeadline | internal/core/usecases/subscriber.go:149-154 | The same for ModifyAckDeadline; the new deadline is the current time plus the duration. |
| Usecases.BrokerService.HandleDeadLetters | internal/core/usecases/subscriber.go:159-219 | The same for the dead letters of a batch, in the order of the code, with its early returns on errors. |
| Usecases.BrokerService.Serve | internal/api/handler/subscription.go:167-201 | A Pull request: a maximum of 0 or less means 100, and dead letters are dealt with before the answer. The visit of the leases is complete, and dead messages reach every subscription of their topic before they are acknowledged. `LeaseLaws.ServeDefault` has the number. |
| Usecases.BrokerService.CreateSnapshot | internal/core/usecases/snapshot.go:34-61 | The same for taking a snapshot. |
| Usecases.BrokerService.SeekTo | internal/core/usecases/snapshot.go:95-154 | The same for both kinds of Seek; `SeekLaws.SeekToTime` and `SnapshotRuns.SnapshotThenSeek` say what they restore. |
| Usecases.BrokerService.StampAndStore | internal/core/usecases/publisher.go:43-57 | Message by message: the next ID, the publish time, and the entry in the log under topic and ID. |
| Usecases.BrokerService.FilteredCopies | internal/core/usecases/publisher.go:71-81 | New pending copies, under new ack IDs, of the messages that the filter lets through. |
| Usecases.BrokerService.FindBacklog | internal/core/usecases/snapshot.go:100-113 | New pending copies, under new ack IDs, of the messages that the Seek wants, or an error if the topic cannot be listed. `SeekLaws.FoundSince` says which these are for a time. |
| Usecases.BrokerService.SplitDead | internal/core/usecases/subscriber.go:171-178 | The batch is split into kept and dead messages. |
| Usecases.BrokerService.Forward | internal/core/usecases/subscriber.go:200-212 | The subscriptions get new copies one after the other, until one cannot take all of its own. |
| Usecases.BrokerService.ForwardDead | internal/core/usecases/subscriber.go:181-215 | Stored, forwarded and then acknowledged, with a return at the first error. |
| Usecases.BrokerService.CreateTopic | internal/core/usecases/topic.go:26-37 | The topic exists afterwards; an error if it did before. |
| Usecases.BrokerService.CreateSubscription | internal/core/usecases/subscriber.go:46-59 | The subscription and its empty queue exist afterwards; an error, and no change, if its topic is missing or its name taken. |
| BrokerRuns.ForwardProjects | internal/core/usecases/subscriber.go:200-212 | However far forwarding gets, each queue sees it as enqueued batches of new copies. |
| BrokerRuns.StepProjects | internal/core/usecases/subscriber.go:130-219 | Every action of the broker is, on each queue, a sequence of that queue's own operations. |
| BrokerRuns.RunProjects | internal/core/storage/repositories/pending_message.go:52-210 | A run of the broker is, on each queue, a run of that queue; so the results about queues hold for every queue of every run of the broker. |
| BrokerRuns.SaneAlways | internal/core/storage/repositories/pending_message.go:52-210 | In every state of every run all queues are well formed and all messages are within the limits of their entity. |
| ServiceRuns.Publish | internal/core/usecases/publisher.go:36-88 | A call of Publish on the service is an action of the broker that is possible then, and leads to the state it leaves; it does what `PublishLaws.Publishes` says. |
| ServiceRuns.RunFanOut | internal/core/usecases/publisher.go:70-83 | A call of RunFanOut on the service is an action of the broker that is possible then, and leads to the state it leaves; the queue grows as `PublishLaws.Appended` says. |
| ServiceRuns.Pull | internal/core/usecases/subscriber.go:130-140 | A call of Pull on the service is an action of the broker that is possible then, and leads to the state it leaves; its answer and the queue afterwards are those of `LeaseLaws.Pulls`. |
| ServiceRuns.Acknowledge | internal/core/usecases/subscriber.go:142-147 | A call of Acknowledge on the service is an action of the broker that is possible then, and leads to the state it leaves; exactly the given leases are gone. |
| ServiceRuns.ModifyAckDeadline | internal/core/usecases/subscriber.go:149-154 | A call of ModifyAckDeadline on the service is an action of the broker that is possible then, and leads to the state it leaves; exactly the given leases end at the current time plus the duration. |
| ServiceRuns.HandleDeadLetters | internal/core/usecases/subscriber.go:159-219 | A call of HandleDeadLetters on the service is an action of the broker that is possible then, and leads to the state it leaves. |
| ServiceRuns.CreateSnapshot | internal/core/usecases/snapshot.go:34-61 | A call of CreateSnapshot on the service is an action of the broker that is possible then, and leads to the state it leaves; it does what `SeekLaws.Records` says. |
| ServiceRuns.SeekTo | internal/core/usecases/snapshot.go:95-154 | A call of SeekTo on the service is an action of the broker that is possible then, and leads to the state it leaves; to a time, it does what `SeekLaws.SoughtTo` says. |
| ServiceRuns.Serve | internal/api/handler/subscription.go:167-201 | A Pull request is two such actions, or one if the Pull fails. It pulls 100 messages if it asks for none or fewer, otherwise as many as it asks for, and answers those of them that the policy lets through: without a policy, all. |
| LeaseLaws.PullMeans | internal/core/usecases/subscriber.go:130-140 | A Pull fails if the subscription does not exist; otherwise its queue hands messages out as `PullLaws.HandsOut` says, with the ack deadline and ordering of the subscription, and nothing else of the broker changes. |
| LeaseLaws.NotAgainBefore | internal/core/storage/repositories/pending_message.go:77-109 | A message that was handed out is in no answer of any later Pull of the subscription until its ack deadline, whatever else the broker does, unless someone sets its deadline or a Pull in between is later. |
| LeaseLaws.ServeDefault | internal/api/handler/subscription.go:171-183 | A request for at most 0 messages does and answers exactly what a request for 100 does, and any other pulls as many as it asks for. |
| LeaseLaws.SurvivorsAnswer | internal/core/usecases/subscriber.go:159-218 | The answer to a batch is, in order, the messages with fewer attempts than the maximum of the policy; all of them without one. |
| LeaseLaws.AcknowledgeMeans | internal/core/storage/repositories/pending_message.go:186-195 | Exactly the given leases are gone, everything else of the broker is as it was; an error if the subscription does not exist. |
| LeaseLaws.ExtendMeans | internal/core/storage/repositories/pending_message.go:198-210 | Exactly the given leases get the new deadline, likewise. |
| BrokerSafety.SeparateAlways | internal/core/storage/repositories/pending_message.go:52-67 | In every state of every run no record is held by two queues. |
| BrokerSafety.ConservationEverywhere | internal/core/storage/repositories/pending_message.go:52-210 | The books balance on every queue of every run of the broker. |
| BrokerSafety.EndedForGood | internal/core/storage/repositories/pending_message.go:165-195 | An ack ID acknowledged while leased, as a dead letter too, or live when a Seek replaced its queue, is in no queue of any later state, in no batch handed out later, and acknowledging or extending it in any subscription changes nothing. |
| BrokerSafety.DeadIdAtSource | internal/core/usecases/subscriber.go:213-215 | After a successful hand-off, and whatever was done to its lease before, a dead message is held by the source if and only if it waited there before; it waits there still. |
| BrokerSafety.OthersUntouched | internal/core/usecases/publisher.go:68-85 | An action leaves every queue that it does not address as it is. |
| BrokerSafety.OneLeasePerKeyEverywhere | internal/core/storage/repositories/pending_message.go:81-109 | In every run of the broker no two leases of an ordered subscription share a key. |
| BrokerSafety.GoneEverywhere | internal/core/storage/repositories/pending_message.go:165-195 | An issued ack ID that a queue does not hold never gets into it, whatever the broker does. |
| BrokerSafety.CreationKeepsSeparate | internal/core/storage/repositories/pending_message.go:31-33 | Nor does a new queue share a record with another. |
| AnswerRuns.AnswerIsOutcome | internal/api/handler/subscription.go:177-193 | However much later the dead letters of a batch are dealt with, its request is answered with the messages of the batch that pass the policy, or with an error. |
| AnswerRuns.BoundedAnswers | internal/core/usecases/subscriber.go:171-178 | Under a policy with maximum M at most M - 1 Pulls of any run of the broker have a message in their answer, if and only if its subscription leases it fewer than 2^31 times; and all of them do as long as these are fewer than M. Counted is what each Pull answers if its hand-off succeeds: the bound holds of the answers that are sent, but a failing hand-off may leave fewer, so the only-if half is not about these. |
| AnswerRuns.AttemptsEverywhere | internal/core/storage/repositories/pending_message.go:107-109 | In every run of the broker a leased record carries the number of its leases, a waiting one that of its ended leases. |
| AnswerRuns.LeaseEndedEverywhere | internal/core/storage/memory/queue.go:95-106 | In every run of the broker a leased record gets back into its channel only by a Pull of its subscription after the deadline it then had. |
| AnswerRuns.ExclusiveEverywhere | internal/core/storage/repositories/pending_message.go:77-109 | If a subscription hands out the same ack ID twice in a run of the broker, such a Pull came between, or was the second. |
| AnswerRuns.DeadLeaveSource | internal/core/usecases/subscriber.go:171-215 | However long after its Pull a batch is handed over: on success each dead message has left the source, or some Pull in between came later than the deadline of its lease and took it back. |
| AnswerRuns.KeyOrderEverywhere | internal/core/storage/repositories/pending_message.go:81-125 | In every run of the broker that does not disturb a key, its messages are handed out in order of arrival. |
| AnswerRuns.NextOnlyAfterAckEverywhere | internal/core/storage/repositories/pending_message.go:81-105 | And when one of them is handed out, all those of the key that were handed out before had been acknowledged. |
| SnapshotRuns.SnapshotRemembers | internal/core/usecases/snapshot.go:34-61 | Taking a snapshot fails only if the name is taken; it remembers the IDs of exactly the messages held, waiting or leased, and changes no record. |
| SnapshotRuns.BacklogIs | internal/core/usecases/snapshot.go:99-113 | A Seek finds exactly the stored messages of the topic that it wants, each once, and never fails on one it cannot read. |
| SnapshotRuns.SeekRestores | internal/core/usecases/snapshot.go:95-154 | When nothing comes between the two repository calls of a Seek: if they fit, the channel holds exactly one new copy of each of them and nothing is in flight; otherwise the channel is filled with some of them, and the error says so. |
| SnapshotRuns.SnapshotThenSeek | internal/core/usecases/snapshot.go:122-154 | After any run, a Seek to a snapshot on a subscription of the same topic, its two calls following each other, restores exactly the messages held when the snapshot was taken and those of the topic published at that time or later, one new copy each, nothing in flight, if they fit. |
| SnapshotRuns.SeekInParts | internal/core/usecases/snapshot.go:95-154 | The same with any run of the broker between the two calls: what is restored is exactly what the Seek wanted when it listed the log. |
| SnapshotRuns.LateMessagesAreLost | internal/core/usecases/snapshot.go:131-150 | On success all messages that the Seek wants when it replaces the queue are in the channel if and only if none of them was stored since the listing, and none of those that the queue held is lost if and only if it held none stored since that is wanted. |
| SnapshotRuns.SnapshotThenSeekInParts | internal/core/usecases/snapshot.go:122-154 | With any run before the Seek and any run between its two calls, a Seek to a snapshot restores exactly the messages held when it was taken and those published at that time or later that were stored when the log was listed. |
| SnapshotRuns.SeekIsItsParts | internal/core/usecases/snapshot.go:122-154 | The Seek that is one action of a run is its two calls with nothing in between. |
| SeekLaws.SeekToTime | internal/core/usecases/snapshot.go:95-118 | After a Seek to a time, its two calls following each other, nothing is in flight. If it succeeds, the channel holds one new copy of exactly the messages stored under the topic with this publish time or a later one; if it fails, the channel is full of some of them and there are more. |
| SeekLaws.SeekToTimeInParts | internal/core/usecases/snapshot.go:95-118 | The same with any run between the two calls, of the log as it was listed. |
| SeekLaws.FoundSince | internal/core/usecases/snapshot.go:99-107 | The messages that the first call finds are exactly those of the topic with this publish time or a later one, each once. |
| SeekLaws.SnapshotMeans | internal/core/usecases/snapshot.go:34-61 | Taking a snapshot fails if the subscription does not exist or the name is taken; otherwise it records the subscription, its topic, the time and the IDs of exactly the messages held, and no queue changes what it holds. |
| SnapshotRuns.OnTheirWayAreMissed | internal/core/usecases/snapshot.go:34-61 | Messages still on their way when the snapshot is taken: all of the backlog is restored if and only if each of these is held as well or not published before the snapshot. |
| SnapshotRuns.SnapshotStays | internal/core/usecases/snapshot.go:57-59 | A snapshot is never overwritten during a run. |
| FilterRuns.FilteredAlways | internal/core/usecases/publisher.go:70-81 | In every run without a Seek of the subscription and without dead letters of its topic, it holds only messages that its filter lets through. |
| FilterRuns.NotADeadLetterTopic | internal/core/usecases/subscriber.go:164-178 | The second cannot happen when no policy names its topic. |
| FilterRuns.SeekKeepsFilter | internal/core/usecases/snapshot.go:95-154 | After a successful Seek the subscription holds only messages that pass if and only if all restored messages do. |
| FilterRuns.DeadLettersKeepFilter | internal/core/usecases/subscriber.go:200-212 | After a successful hand-off a subscription of the dead-letter topic still holds only messages that pass if and only if all dead messages do. |
| DeadLetters.KeptInOrder | internal/core/usecases/subscriber.go:171-178 | The kept messages are those with attempts left, in their order. |
| DeadLetters.DeadInOrder | internal/core/usecases/subscriber.go:171-178 | The dead ones are the others, in their order. |
| DeadLetters.ForwardReaches | internal/core/usecases/subscriber.go:200-212 | Forwarding succeeds if and only if every subscription takes all copies, and then each has them at its end. |
| DeadLetters.DeadLettersAreStored | internal/core/usecases/subscriber.go:182-194 | Every dead message gets a new ID of its own and is stored under the dead-letter topic. |
| DeadLetters.DeadLettersArrive | internal/core/usecases/subscriber.go:196-212 | On success it is pending once, new and never delivered, in every subscription of the dead-letter topic. |
| DeadLetters.SourceIsReleased | internal/core/usecases/subscriber.go:213-215 | On success exactly the dead messages' leases have left the source; on an error no lease of any queue has changed. It speaks of leases only: `BrokerSafety.DeadIdAtSource` says of each dead message whether the source still holds it. |
| DeadLetters.HandOffSucceeds | internal/core/usecases/subscriber.go:196-218 | The hand-off succeeds if and only if the source exists and every dead-letter subscription has room for all dead messages. |
| DeadLetters.ServedAreLeased | internal/api/handler/subscription.go:177-193 | Whatever a Pull request answers is leased and has attempts left, and dead messages are leased no more; if it fails, the whole batch stays leased. |
| DeadLetters.KeptAndDeadApart | internal/core/usecases/subscriber.go:171-178 | Each message of a batch is kept or dead, and never both. |
| DeadLetters.ForwardStopsAt | internal/core/usecases/subscriber.go:200-212 | If forwarding fails, it does so at the first subscription that cannot take all copies: those before have all, this one as many as fit, the others none. |
| SampleBrokers.SeekBreaksFilter | internal/core/usecases/snapshot.go:95-118 | A run in which a Seek brings back a message that the filter keeps out. |
| SampleBrokers.SnapshotMisses | internal/core/usecases/snapshot.go:34-61 | A run in which a message is published before a snapshot, arrives after it, and is gone after a Seek to it. |
| SampleBrokers.SeekWipes | internal/core/usecases/snapshot.go:97-115 | A run in which a message is published and arrives between the two calls of a Seek that wants it, and is gone after it. |
| SampleDeadLetters.DeadStays | internal/core/usecases/subscriber.go:171-215 | A run from an empty broker in which a message reaches the maximum of its policy, a later Pull takes it back before its batch is handed over, the hand-off succeeds, and the message waits at the source. |
| Dispatchers.Dispatcher.Register | internal/core/usecases/dispatcher.go:48-55 | The consumer is last in line and the trigger is set. |
| Dispatchers.Dispatcher.StreamMessages | internal/core/usecases/subscriber.go:115-126 | A new streaming consumer has room for 16 batches and is last in line. |
| Dispatchers.Dispatcher.Deregister | internal/core/usecases/dispatcher.go:57-66 | The consumer is out of the line, the others keep their order. |
| Dispatchers.DeregisterUndoesRegister | internal/core/usecases/dispatcher.go:48-67 | Deregistering undoes registering. |
| Dispatchers.Dispatcher.Stop | internal/core/usecases/dispatcher.go:84-91 | All consumers are closed and forgotten; a registered consumer is never closed, so nothing is sent to a closed channel. |
| Dispatchers.Dispatcher.Offer | internal/core/usecases/dispatcher.go:129-145 | The batch is added to the channel of the first consumer in cyclic order that holds fewer batches than its channel can, to no other, and the position moves behind it; nobody gets it exactly when all channels hold what they can. |
| Dispatchers.Dispatcher.Deliver | internal/core/usecases/dispatcher.go:111-146 | Without consumers nothing is leased; otherwise up to 1000 messages are leased, with a complete visit of the leases for expiry, and, if there are any, offered once, as `Offer` does. |
| Dispatchers.TurnIsFirst | internal/core/usecases/dispatcher.go:135-144 | The batch goes to the first consumer with room in cyclic order from the position. |
| Dispatchers.NobodyOnlyIfAllFull | internal/core/usecases/dispatcher.go:135-145 | Nobody gets it if and only if all are full. |
| Dispatchers.TurnHasRoom | internal/core/usecases/dispatcher.go:135-145 | Said of batches and capacities: who gets the batch, and that nobody does exactly when every channel holds as many as it can. |
| Dispatchers.BatchIsLeased | internal/core/usecases/dispatcher.go:124-127 | Whoever gets the batch, or nobody: its messages are leased. |
| Dispatchers.RoundRobin | internal/core/usecases/dispatcher.go:111-146 | Of k successive batches to consumers that all have room each gets k / n, and the first k % n in line one more. |
| Dispatchers.FairShares | internal/core/usecases/dispatcher.go:111-146 | So no two consumers are more than one batch apart. |
| Dispatchers.NoStarvation | internal/core/usecases/dispatcher.go:111-146 | A consumer that has room at each of n successive batches gets at least one of them, however full the others are. |

## Left out

- QueueRuns.InvAlways: in the runs of a queue each call of the repository, and in Dispatcher each part that holds the lock, is one atomic step; goroutines that interleave inside one call are not modelled.
- BrokerRuns.StepProjects: in the runs of the broker a whole use case is one step, although it makes several repository calls. Split up are those of a Publish and its fan-outs, of a Pull and the hand-off of its dead letters, and, in `SnapshotRuns.SeekInParts`, of a Seek; the calls inside one Publish, one hand-off and one CreateSnapshot are not.
- BrokerRuns.SaneAlways: topics and subscriptions do not change during a run. They are created between two runs, which keeps the invariants (`StoreRuns.CreationKeepsConsistent`); updating, detaching and deleting them, and deleting or updating snapshots, are left out as single-entry updates of maps.
- BrokerRuns.RunProjects: ack IDs never repeat; in the program they are 128 random bits.
- MessageLogs.MessageIDs: the message counter is unbounded; the program's has 64 bits.
- Dispatchers.RoundRobin: so is the position of the dispatcher, an `int` in the program.
- Dispatchers.Dispatcher.Deliver: the consumers do not change between its two locked parts, for a Dafny method runs alone; `Register`, `Deregister` and `Offer` are there to be interleaved.
- Publishing.FanOutRunsOnce: it does not count the fan-outs of a Publish without messages, which carry nothing and look alike.
- Usecases.BrokerService.SeekTo: both kinds of Seek are one method with a target, and a Seek to a snapshot looks up the unacknowledged IDs in the list instead of a set made from it.
- Usecases.BrokerService.HandleDeadLetters: messages are values, so giving a dead message its new ID makes a new value; the program changes the entity that the Pull made for it, which nothing else refers to.
- Queues as values leave out aliasing; that records are not shared is a property of the repository class, `PendingMessageRepository.Valid`.
- Errors of setters and mappers that never occur (of `SetID`, `SetAckID` and their kin) have no branch here.
- The notify and trigger channels are flags; tickers, sleeps and the delivery delay only decide when `Deliver` is called.
- Dispatchers.Dispatcher.StreamMessages: it does not look up the dispatcher of the subscription; that, `GetMessage`, `DeleteMessage`, `Watch` and `DropSubscription` are one map access each.
- Push delivery, retry backoff, retention, snapshot expiry and the exactly-once flag are stored by the program, but the queues do not act on them.
- Transport, payload mapping, configuration, logging and tracing.
