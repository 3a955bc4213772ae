# Verified models of the data platform's stateful components

These Dafny modules model the parts of the platform whose correctness is a matter of whole runs rather than of single
calls, and prove what those parts are for. `dafny verify dfyconfig.toml` checks everything.

Components that change fields in place are classes whose methods are proved equal to a function on values; the
theorems are lemmas about those functions and about every sequence of them.

- **Rate limiter** (`TokenBucket`). The Lua token bucket in thousandths of a token, which makes the refill exact over
  `int`. The stored balance is shown to be the tightest of all windows; denial, the window bound, the harmlessness of
  denied requests and the invisibility of key eviction follow.
- **Event bus** (`EventLog`, `Consumer`, `Conservation`, `Delivery`, `DeadLetters`, `GroupProtocol`, `GroupHistory`,
  `GroupRuns`, `LoneConsumer`, `Producer`). The in-memory log with group cursors, the consumer's retry, dead-letter and commit protocol, alone and interleaved with any number of others,
  and the producer's bounded retry.
- **Audit sink** (`AuditStore`, `AuditRows`, `AuditRuns`, `AuditPipeline`). One transaction per batch, de-duplication,
  promotion of security events, and the buffer in front of it, compared with inserting envelopes one at a time.
- **Provider stream** (`SseStream`, `SseFormat`, `SseChunks`). The incremental event-stream reader, compared with
  reading the whole text, and the fold of its data lines into chunks. The format is that of section 9.2.5 of the WHATWG HTML Living Standard; the
  code takes only a double line feed as the end of an event and treats each `data:` line on its own.
- **Routing** (`CircuitBreaker`, `Registry`, `RegistryRuns`, `Pricing`, `Router`, `RoutingByPrice`). The breaker against
  its outcome history, the registry's indexes against its dictionary, and cheapest-first failover against a declarative description of the
  provider that must answer.
- **Metering** (`Metering`). The bounded queue between requests, worker and shutdown.

`Common` holds shared datatypes.

## Modelling decisions

- Handlers, sends, commits, database errors, provider outcomes and clock readings are parameters (`Oracle`, action
  lists, booleans). A failed send, commit or flush has no effect on the state behind it.
- An `await` is where interleaving can happen. `GroupProtocol` and `Metering` cut coroutines there and quantify over
  all sequences of the pieces. `flush_batch` contains no `await`, so a flush and the clearing of the buffer after it
  are one step.
- Equal provider objects are told apart by an identity; names may collide.
- Prices, clocks of the breaker and backoff are `real`; Redis time is whole milliseconds.
- The token bucket's theorems suppose rate and burst of at least 1, which the gateway's configuration checks at
  start-up. Those about the shared store also suppose a clock that does not run backwards, because key expiry is
  modelled against the same clock.
- The audit theorems suppose that the foreign keys hold (`Linked`): payload ids are event ids, and a security row
  belongs to a stored event.

## Where the code and its documentation differ

The model follows the code. Each difference has a lemma, or follows from the one named.

- The script's comment says clamping protects against a clock that runs backwards. It keeps the balance in range and
  bounds admissions by the clock's forward movement (`TokenBucket.WindowBound`), but not by elapsed time: that bound
  holds for all demands exactly if the clock never steps back (`TokenBucket.WallBoundIsExact`).
- The topic's documentation speaks of a cursor that advances; a late commit moves it back, which happens only with
  two live consumers in a group (`GroupRuns.CursorFallsOnLateCommit`, `GroupRuns.SoleConsumersKeepCursor`).
- A half-open breaker whose probe fails is documented to open again; it stays half-open
  (`CircuitBreaker.FailedProbesDoNotReopen`), and half-open providers stand in the chain by price, not last
  (`Router.RouteIsRight`).
- A provider that yields no terminal chunk is commented as a soft failure that fails over; it raises to the caller
  (outcome `NoTerminal` in `Router`).
- `register` is documented as insert or replace; replacing leaves the old object in the indexes
  (`Registry.RegisterKeepsAgreement`). `unregister` leaves the entry under a default tier (`Registry.UnregisterKeepsAgreement`).
- `flush_batch` is documented to return the number of new rows; a repeat within the batch is counted twice
  (`AuditRuns.CountIsGrowth`), and a batch that repeats a new security event is rolled back while its size is returned
  (`AuditRuns.FlushOutcome`). A handler retry after a failed flush makes such a batch
  (`AuditPipeline.RetriedSecurityEventLosesBatch`).
- The handler returns after buffering, so an offset may be committed before its envelope is stored; a failed final
  flush or a dead timer loses the buffer (`AuditPipeline.Pipeline.Shutdown`).
- The dead-letter copy is documented to keep the key verbatim; a missing key becomes the empty key
  (`Consumer.SendToDlq`).
- `stop` is documented to drain the queue; with a full queue its sentinel is silently left out and it never returns
  (`Metering.StopCanReturn`), and overlapping stops can leave a record behind (`Metering.OverlappingStopsLoseARecord`).

## Model

| member | source | states |
|---|---|---|
| TokenBucket.RedisStore.RunScript | services/gateway/internal/middleware/ratelimit.go:51-87 | One script execution: the stored bucket and expiry afterwards are those of `Serve`, `allowed` is the admission decision, `remaining` is the stored balance in whole tokens |
| TokenBucket.TokensStayInRange | services/gateway/internal/middleware/ratelimit.go:63-79 | On every trace, forward clock or not, the balance stays between 0 and the depth and carries the time of the last request |
| TokenBucket.LevelIsTightestWindow | services/gateway/internal/middleware/ratelimit.go:68-79 | On every clock the balance found by a request is the minimum, over all windows ending now, of what the window still allows, counting the clock's forward movement; some window attains it |
| TokenBucket.ForwardIsElapsed | services/gateway/internal/middleware/ratelimit.go:68-73 | Forward movement is at least the elapsed time, and equal to it if and only if the clock did not step back in between |
| TokenBucket.ExactDenial | services/gateway/internal/middleware/ratelimit.go:68-79 | On every clock a request is refused if and only if admitting it would push some window of its predecessors over depth plus forward refill |
| TokenBucket.ExactDenialByWallClock | services/gateway/internal/middleware/ratelimit.go:68-79 | If the clock has not stepped back so far, the same with elapsed time in place of forward movement |
| TokenBucket.WindowBound | services/gateway/internal/middleware/ratelimit.go:68-79 | On every clock, between any two requests of a run, tokens granted never exceed depth plus rate times the clock's forward movement |
| TokenBucket.SteadyWindowBound | services/gateway/internal/middleware/ratelimit.go:68-79 | In a window in which the clock does not step back they never exceed depth plus rate times elapsed time, whatever the clock does elsewhere |
| TokenBucket.WallBoundIsExact | services/gateway/internal/middleware/ratelimit.go:68-79 | For given clock readings that elapsed-time bound holds for every window and every choice of costs if and only if the readings never step back |
| TokenBucket.BackwardClockBreaksBound | services/gateway/internal/middleware/ratelimit.go:68-71 | Three requests of one token each, with one step back between them, are granted more than depth plus rate times elapsed time |
| TokenBucket.RefillComposes | services/gateway/internal/middleware/ratelimit.go:68-73 | Refilling with the cap over two consecutive intervals equals refilling once over both |
| TokenBucket.DeniedRequestsAreInert | services/gateway/internal/middleware/ratelimit.go:70-87 | Deleting any set of refused requests from a trace leaves every other decision and every later balance unchanged |
| TokenBucket.ExpiredIsFull | services/gateway/internal/middleware/ratelimit.go:81-86 | A bucket old enough to be evicted has refilled to its depth |
| TokenBucket.TtlIsTight | services/gateway/internal/middleware/ratelimit.go:81-86 | The lifetime is the least whole number of seconds that refills the depth, plus one |
| TokenBucket.StoreHoldsOwnBucket | services/gateway/internal/middleware/ratelimit.go:59-86 | With many identities and arbitrary eviction, a stored bucket is exactly the never-evicted bucket of its own identity's requests |
| TokenBucket.ExpiryAndOthersAreInvisible | services/gateway/internal/middleware/ratelimit.go:59-87 | Each call is answered as if no key had ever been evicted and no other identity had called |
| TokenBucket.LimiterIsExact | services/gateway/internal/middleware/ratelimit.go:51-87 | End to end, over the shared store on a forward clock: a call is refused if and only if some window of its own identity's calls would overflow depth plus rate times elapsed time |
| EventLog.Topic.Append | libs/python/aidp_events/src/aidp_events/inmemory_transport.py:49-52 | Appends the record under the next offset; offsets equal positions |
| EventLog.Topic.NextFor | libs/python/aidp_events/src/aidp_events/inmemory_transport.py:54-78 | Opens the cursor of a new group by policy, moves nothing else, returns the record at the cursor or nothing |
| EventLog.Topic.Commit | libs/python/aidp_events/src/aidp_events/inmemory_transport.py:80-82 | Stores the offset it is given, whatever the cursor was |
| EventLog.InMemoryTransport.Send | libs/python/aidp_events/src/aidp_events/inmemory_transport.py:158-179 | The bus afterwards is the old one with one record appended to one topic, created if missing |
| EventLog.InMemoryTransport.Commit | libs/python/aidp_events/src/aidp_events/inmemory_transport.py:192-196 | The bus afterwards differs in one group's cursor on one topic |
| EventLog.InMemoryTransport.Poll | libs/python/aidp_events/src/aidp_events/inmemory_transport.py:226-233 | One topic's turn in a pass of the consume loop: delivers the record at the group's cursor and only opens that cursor |
| Delivery.SendMeans | libs/python/aidp_events/src/aidp_events/inmemory_transport.py:158-179 | A send adds one record, its key, value and headers as given, at the end of one topic's log, and moves no cursor |
| Delivery.CommitMeans | libs/python/aidp_events/src/aidp_events/inmemory_transport.py:80-82 | A commit sets one cursor of one topic and changes nothing else |
| Delivery.PollMeans | libs/python/aidp_events/src/aidp_events/inmemory_transport.py:70-78 | A poll returns the record at the committed offset, or for a new group at the first record or the log end by its policy, exactly if there is one, and leaves the group there |
| Consumer.SendToDlq | libs/python/aidp_events/src/aidp_events/consumer.py:148-184 | On success the dead-letter topic gains one record with the value unchanged, the key (empty if there was none), the original headers first and the diagnostic headers after; on failure nothing changes |
| Consumer.ForwardAndCommit | libs/python/aidp_events/src/aidp_events/consumer.py:311-325 | Dead-letters and then commits past the record; a failed send leaves the bus as it was, a failed commit leaves the letter and the cursor |
| Consumer.ProcessRecord | libs/python/aidp_events/src/aidp_events/consumer.py:296-397 | The retry loop ends with the verdict `VerdictFor` and leaves the bus `AfterVerdict` |
| Consumer.TakeTurn | libs/python/aidp_events/src/aidp_events/consumer.py:262-276 | One turn of the consume loop: poll, and process what was delivered |
| Consumer.ConsumeEvents | libs/python/aidp_events/src/aidp_events/consumer.py:232-276 | Invalid arguments are refused before the bus is touched; otherwise the bus and the ledger of deliveries are those of `Consumed` |
| Conservation.VerdictIsEarned | libs/python/aidp_events/src/aidp_events/consumer.py:335-397 | A record counts as handled if and only if it parses and some attempt within the budget succeeds, and then the calls made are up to the first success; otherwise the handler was called exactly the budget, or not at all for an unparseable record; a dead letter copies key, value and headers |
| Conservation.LedgerIsEarned | libs/python/aidp_events/src/aidp_events/consumer.py:296-397 | Every delivery of a whole run is truthful: handled only if parsed and within the budget, otherwise with the whole budget spent or, for an unparseable record, no call at all, and with a dead letter that copies key, value and headers |
| Conservation.ConservedFrom | libs/python/aidp_events/src/aidp_events/consumer.py:262-397 | From a known cursor: the deliveries are the log from there on, once each and in order, all settled but possibly the last; the cursor is start plus settled deliveries; the dead-letter topic grew by exactly the letters, in order; an unsettled delivery leaves the cursor on its record |
| Conservation.ConsumerConserves | libs/python/aidp_events/src/aidp_events/consumer.py:262-397 | The same for a group that may be new: one joining at the end of the log never sees a record older than the run |
| Delivery.TurnDelivers | libs/python/aidp_events/src/aidp_events/consumer.py:262-276 | A turn of the loop delivers a record exactly if there is one where the group reads once the turn's arrivals are in the log, and it is that one |
| Delivery.UnreadIsDelivered | libs/python/aidp_events/src/aidp_events/inmemory_transport.py:70-78 | A record at an open cursor is delivered whatever the reset policy and whatever arrives |
| Delivery.SettledTurnsProgress | libs/python/aidp_events/src/aidp_events/consumer.py:262-276 | Turns without arrivals whose deliveries settle move the cursor by one each up to the log end, delivering the records in between |
| Delivery.ConsumerCatchesUp | libs/python/aidp_events/src/aidp_events/consumer.py:262-397 | However its handler fails, a consumer whose dead-letter topic and commits work reaches the end of a quiet log |
| DeadLetters.DecimalIsReadable | libs/python/aidp_events/src/aidp_events/consumer.py:152 | The retry count is written in decimal digits from which the number can be read back |
| DeadLetters.ConsumerHeadersAreReadable | libs/python/aidp_events/src/aidp_events/consumer.py:149-159 | From a dead letter's headers one can read back the topic, the retry count, the error, the event and tenant ids if the record parsed, and the original headers |
| DeadLetters.DeadLetterTellsAll | libs/python/aidp_events/src/aidp_events/consumer.py:148-184 | A forwarded delivery adds one record to the topic's dead-letter topic, which tells value, key, original headers, topic, the number of handler calls made and the error that ended them |
| GroupProtocol.StepKeeps | libs/python/aidp_events/src/aidp_events/consumer.py:285-397 | The protocol invariant survives every step of every producer and consumer, including crashes between any two awaits |
| GroupProtocol.RunKeeps | libs/python/aidp_events/src/aidp_events/consumer.py:262-397 | So it holds in every state reachable under any schedule |
| GroupProtocol.NothingIsSkipped | libs/python/aidp_events/src/aidp_events/inmemory_transport.py:49-82 | At-least-once: for any interleaving of any number of consumers of a group, every offset from the group's start up to its current cursor was handled or dead-lettered, and the cursor never passes the log end |
| GroupProtocol.HistoryIsGenuine | libs/python/aidp_events/src/aidp_events/consumer.py:148-167 | Every settled offset names an existing record, and every dead letter is a faithful copy of the record it stands for |
| GroupHistory.StepLogsEvidence | libs/python/aidp_events/src/aidp_events/consumer.py:335-397 | A step logs an event exactly if it lets a consumer come back without an error from awaiting its handler on that record, or from sending it to the dead-letter topic |
| GroupHistory.HistoryIsEarned | libs/python/aidp_events/src/aidp_events/consumer.py:335-397 | Over any schedule, an event is in the history if and only if such a step is in the schedule |
| GroupHistory.NothingIsSkippedInTheSchedule | libs/python/aidp_events/src/aidp_events/inmemory_transport.py:49-82 | At-least-once told from the schedule alone: for every offset from the group's start up to its cursor some step let a consumer of the group return from its handler on that record, or deliver it to the dead-letter topic |
| GroupRuns.HandlerCallsAreBounded | libs/python/aidp_events/src/aidp_events/consumer.py:335-369 | The number of times a consumer calls its handler for the record it took last is within the budget, equals the attempt number while attempts last, and is zero for a record that does not parse |
| GroupRuns.JoiningStartsToPoll | libs/python/aidp_events/src/aidp_events/consumer.py:232-241 | A consumer with valid arguments starts by polling; invalid arguments start nothing |
| GroupRuns.CrashIsFinal | libs/python/aidp_events/src/aidp_events/consumer.py:277-282 | A consumer that crashed or was cancelled does nothing any more under any schedule |
| GroupRuns.RunGrows | libs/python/aidp_events/src/aidp_events/inmemory_transport.py:43-52 | Under every schedule logs only grow, a group's recorded start never changes and the history is never rewritten |
| GroupRuns.EarliestStartsAtZero | libs/python/aidp_events/src/aidp_events/inmemory_transport.py:70-75 | A group whose consumers all join with the earliest policy starts at offset 0 |
| GroupRuns.NothingIsSkippedFromTheFirst | libs/python/aidp_events/src/aidp_events/inmemory_transport.py:49-82 | So for such a group every offset below the cursor was handled or dead-lettered |
| GroupRuns.CursorFallsOnLateCommit | libs/python/aidp_events/src/aidp_events/inmemory_transport.py:80-82 | In every reachable state, a step lowers an open cursor if and only if it lets a consumer of the group commit a record the cursor has already left behind |
| GroupRuns.StepMovesCursor | libs/python/aidp_events/src/aidp_events/inmemory_transport.py:70-82 | Exactly what each step does to a group's cursor: only a successful commit and the first poll of a new group set it |
| GroupRuns.SoleConsumersKeepCursor | libs/python/aidp_events/src/aidp_events/consumer.py:262-397 | With at most one live consumer per topic and group at every moment, over a whole run with crashes and successors, no cursor is ever lowered |
| GroupRuns.SoleRunsNeverMoveBack | libs/python/aidp_events/src/aidp_events/consumer.py:262-397 | From the initial state under such a schedule, every record in hand is the one at its group's cursor, and no next step lowers a cursor |
| LoneConsumer.DeliveryIsASchedule | libs/python/aidp_events/src/aidp_events/consumer.py:285-397 | Each delivery of the sequential consumer is a schedule of the interleaved one with the same effect on the bus |
| LoneConsumer.RunIsASchedule | libs/python/aidp_events/src/aidp_events/consumer.py:262-397 | So is every whole run of it, arrivals included: same bus, and the consumer is still polling unless an error left the loop |
| GroupRuns.CursorCanMoveBack | libs/python/aidp_events/src/aidp_events/inmemory_transport.py:80-82 | Such a late commit is reachable with two live consumers: a schedule from the initial state that moves a cursor from 2 back to 1 |
| Producer.SendWithRetry | libs/python/aidp_events/src/aidp_events/producer.py:163-197 | At most `max_retries + 1` sends, stopping at the first success; on failure no trace on the bus; the time slept is the sum of the capped doublings |
| Producer.PublishEvent | libs/python/aidp_events/src/aidp_events/producer.py:118-247 | Exactly one of: refused arguments, one append to the topic, one append to its dead-letter topic with the same key and value, or an error with the bus unchanged; each tied to which sends failed |
| Producer.CappedBound | libs/python/aidp_events/src/aidp_events/producer.py:185-197 | Total backoff is at most the number of sleeps times the cap |
| Producer.GeometricBound | libs/python/aidp_events/src/aidp_events/producer.py:185-197 | Total backoff is at most base times (2 to the number of sleeps, minus 1) |
| Producer.DelayIsBounded | libs/python/aidp_events/src/aidp_events/producer.py:164-197 | Whatever attempt ended the loop, the wait is within both bounds taken at `max_retries` |
| Producer.BackoffDoubles | libs/python/aidp_events/src/aidp_events/producer.py:185-186 | The first wait is the base and each next one twice the last, both cut off at the cap |
| Producer.TotalIsGeometric | libs/python/aidp_events/src/aidp_events/producer.py:185-197 | While no wait is cut off the total wait is exactly base times (2 to the number of sleeps, minus 1) |
| Producer.TotalIsCapped | libs/python/aidp_events/src/aidp_events/producer.py:185-197 | From the first wait that is cut off, each further one adds exactly the cap |
| DeadLetters.ProducerHeadersAreReadable | libs/python/aidp_events/src/aidp_events/producer.py:202-208 | From the headers of an event forwarded by the producer one can read back its topic, the retry count, the error and its own headers |
| AuditStore.Store.FlushBatch | services/audit/src/aidp_audit/consumer.py:415-520 | The three tables and the result afterwards are those of `Flushed`; an empty batch returns 0, a database error changes nothing and raises |
| AuditStore.BulkIsItemwise | services/audit/src/aidp_audit/consumer.py:442-499 | Without a clash the three bulk statements together equal inserting the items one at a time, first wins |
| AuditStore.ClashIsNotItemwise | services/audit/src/aidp_audit/consumer.py:465-508 | With a clash they never do |
| AuditStore.FlushIsFirstWins | services/audit/src/aidp_audit/consumer.py:422-512 | A flush equals one-at-a-time first-wins insertion if and only if no two new items of the batch share an id and either differ in tenant or the later one is a promoted security event |
| AuditRows.CommittedFlush | services/audit/src/aidp_audit/consumer.py:427-495 | Column by column: for each new id a committed flush stores the tenant, topic, type and columns, and the cipher text, of the batch's first item of that id, and for each new item of a security type that item's promoted row; everything stored before stays |
| AuditRows.StoredKeys | services/audit/src/aidp_audit/consumer.py:432-495 | And nothing else is stored: the ids gained are those of the batch, the security keys gained those of its new security events |
| AuditRows.UncommittedFlush | services/audit/src/aidp_audit/consumer.py:497-520 | A flush that does not commit leaves every table as it was |
| AuditRuns.FlushOutcome | services/audit/src/aidp_audit/consumer.py:427-520 | A flush raises if and only if two new items share an id across tenants; it reports rows yet stores none if and only if a new security event is repeated in the batch under promotion |
| AuditRuns.CountIsGrowth | services/audit/src/aidp_audit/consumer.py:411-512 | The number returned is the growth of the event table if and only if no new id is repeated in the batch |
| AuditRuns.BatchingIsFirstWins | services/audit/src/aidp_audit/consumer.py:422-488 | Any run of batches none of which clashes among its new items, with any re-deliveries, leaves the tables that first-wins insertion of the whole delivered stream leaves |
| AuditRuns.CleanIsFirstWinsThroughout | services/audit/src/aidp_audit/consumer.py:422-510 | The tables are first-wins insertion of the stream after every batch of a run if and only if no batch clashes among its new items |
| AuditRuns.BoundariesDoNotMatter | services/audit/src/aidp_audit/consumer.py:422-488 | Two ways of cutting one stream into runs without such clashes end in the same tables |
| AuditRuns.RedeliveryIsANoop | services/audit/src/aidp_audit/consumer.py:396-440 | A flush changes nothing and returns 0 if and only if every id of the batch is already stored |
| AuditRuns.ReflushIsANoop | services/audit/src/aidp_audit/consumer.py:396-512 | Flushing a batch again changes nothing and returns 0 if and only if the first flush neither raised nor rolled back |
| AuditRuns.RowsNeverChange | services/audit/src/aidp_audit/consumer.py:465-488 | No flush, committed or rolled back, changes or removes a stored row of any table |
| AuditRuns.ProjectionIsKept | services/audit/src/aidp_audit/consumer.py:490-508 | A flush keeps the security table equal to the stored security events if and only if it stored nothing or its batch had no clash |
| AuditRuns.ProjectionSurvivesFlush | services/audit/src/aidp_audit/consumer.py:432-510 | When an id determines its event type, every flush keeps that projection, including those rolled back |
| AuditRuns.SecurityTableIsExact | services/audit/src/aidp_audit/consumer.py:432-510 | So after any sequence of such flushes payload ids equal event ids, the security table is the exact projection, and no row ever changed |
| AuditPipeline.Pipeline.Add | services/audit/src/aidp_audit/consumer.py:605-608 | Buffers the envelope last and stamps the first of a batch |
| AuditPipeline.Pipeline.FlushAndClear | services/audit/src/aidp_audit/consumer.py:695-698 | A normal return moves the whole buffer into the tables as one batch; an error leaves buffer and tables alone |
| AuditPipeline.Pipeline.HandleEnvelope | services/audit/src/aidp_audit/consumer.py:689-698 | Raises exactly if the buffer is full and its flush fails; a full buffer that flushes becomes one stored batch; otherwise the envelope stays buffered, and after a normal return the buffer is below the batch size |
| AuditPipeline.Pipeline.TimerTick | services/audit/src/aidp_audit/consumer.py:628-637 | A tick flushes exactly when the buffer is full or overdue; a failed flush ends the timer and changes nothing else; with a live timer the buffer is neither full nor overdue afterwards |
| AuditPipeline.Pipeline.Shutdown | services/audit/src/aidp_audit/consumer.py:638-647 | The buffer is stored exactly if it was empty or a live timer's final flush returns; a live timer clears it in any case, a dead one leaves it |
| AuditPipeline.Pipeline.Run | services/audit/src/aidp_audit/consumer.py:628-698 | Over any run before shutdown, with any database failures, flushed batches followed by the buffer are the accepted envelopes in order, the tables are those of the flushed batches, and buffer, timer and tables are those of `ActedAll` |
| AuditPipeline.Pipeline.TablesHoldWhatLeft | services/audit/src/aidp_audit/consumer.py:605-698 | If no flushed batch clashed among its new items, the tables are first-wins insertion of all accepted envelopes except those still buffered |
| AuditPipeline.RetriedFlush | services/audit/src/aidp_audit/consumer.py:695-698 | When failed flushes have left any number of copies of an envelope in the buffer, whatever came before and after, the flush that gets through stores what it should have with one copy if and only if the envelope is not a new security event |
| AuditPipeline.RetriedSecurityEventLosesBatch | services/audit/src/aidp_audit/consumer.py:496-512 | Otherwise the whole batch is reported as stored, with a count no smaller than the number of copies, and nothing is stored |
| SseStream.SplitIsUnique | services/agent-gateway/src/aidp_agent/providers/openai_compat.py:295-297 | The cut into events and leftover is the only one that rebuilds the text when rejoined and hides no separator in an event or in the leftover |
| SseStream.SplitAppend | services/agent-gateway/src/aidp_agent/providers/openai_compat.py:294-297 | Text arriving later changes no event already cut off |
| SseStream.FragmentationIndependence | services/agent-gateway/src/aidp_agent/providers/openai_compat.py:293-297 | For every way of cutting the response into fragments, the events and the buffer are those of the whole text |
| SseStream.DrainBuffer | services/agent-gateway/src/aidp_agent/providers/openai_compat.py:296-332 | The inner loop terminates, leaves the unfinished rest, and absorbs every complete event in order |
| SseStream.ReadEvent | services/agent-gateway/src/aidp_agent/providers/openai_compat.py:298-332 | The line loop absorbs exactly the payloads before the event's first end marker, skipping malformed and foreign lines |
| SseStream.StreamChat | services/agent-gateway/src/aidp_agent/providers/openai_compat.py:288-345 | The chunks yielded for a fragmented response are those of the whole text |
| SseStream.AbsorbKeepsContent | services/agent-gateway/src/aidp_agent/providers/openai_compat.py:318-332 | The concatenated deltas of the chunks equal the concatenated content of all payloads read |
| SseStream.AbsorbKeepsLatest | services/agent-gateway/src/aidp_agent/providers/openai_compat.py:315-323 | The totals carried are the latest usage block and the latest finish reason read |
| SseStream.StreamKeepsWhatItReads | services/agent-gateway/src/aidp_agent/providers/openai_compat.py:298-345 | The deltas yielded are the content of all payloads of complete events before their end markers, and if both a usage block and a finish reason were seen the last chunk carries the latest of each |
| SseStream.StreamLosesNothing | services/agent-gateway/src/aidp_agent/providers/openai_compat.py:296-332 | The deltas are the content of every payload of the response if and only if those passed over, behind an event's end marker or in a tail that no blank line ends, carry none |
| SseFormat.StripMeans | services/agent-gateway/src/aidp_agent/providers/openai_compat.py:299-302 | Stripping takes off white space and leaves none at either end |
| SseFormat.LinesAreTheLines | services/agent-gateway/src/aidp_agent/providers/openai_compat.py:298 | The lines read are the only ones whose ends are line breaks, a carriage return and line feed counting as one |
| SseFormat.EveryTextHasLines | services/agent-gateway/src/aidp_agent/providers/openai_compat.py:298 | Every text has such lines |
| SseFormat.StreamRoundTrip | services/agent-gateway/src/aidp_agent/providers/openai_compat.py:293-312 | From a stream of events with data lines, comments and other fields the reader gets back exactly the payloads written that decode, up to each event's end marker, and leaves nothing in the buffer |
| SseChunks.FoldHolds | services/agent-gateway/src/aidp_agent/providers/openai_compat.py:313-323 | After any payloads the id, model, usage and finish reason carried are the newest told, or the defaults |
| SseChunks.ChunksAreExact | services/agent-gateway/src/aidp_agent/providers/openai_compat.py:313-345 | A payload yields a chunk exactly if it has a choice and either its content is not empty or a finish reason was told by then; the chunk has that payload's content and the newest id, model, usage and finish reason up to it; one closing chunk with the newest of each follows exactly if usage and a finish reason were told |
| CircuitBreaker.Breaker.RecordSuccess | services/agent-gateway/src/aidp_agent/router.py:127-132 | The five fields afterwards are those of `OnSuccess` |
| CircuitBreaker.Breaker.RecordFailure | services/agent-gateway/src/aidp_agent/router.py:134-148 | The five fields afterwards are those of `OnFailure`: only a closed breaker trips |
| CircuitBreaker.Breaker.Evaluate | services/agent-gateway/src/aidp_agent/router.py:150-162 | The state reported is the one stored, an open one having become half-open once the cool-off is over |
| CircuitBreaker.FieldsSummariseHistory | services/agent-gateway/src/aidp_agent/router.py:127-162 | After any operations on a forward clock the fields are a summary of the failures since the last success: their number, and the time of the one that reached the threshold |
| CircuitBreaker.BreakerRefinesHistory | services/agent-gateway/src/aidp_agent/router.py:127-162 | The state reported is a function of the outcome history and the clock alone: closed iff the failure run is shorter than the threshold, else open until the cool-off after the threshold-th failure, half-open from then on |
| CircuitBreaker.PollsAreInvisible | services/agent-gateway/src/aidp_agent/router.py:150-162 | Two histories with the same outcomes give the same state however often each was polled |
| CircuitBreaker.FailedProbesDoNotReopen | services/agent-gateway/src/aidp_agent/router.py:134-162 | Once half-open, any number of failures and polls leaves the breaker half-open at every later time: only a success ends it |
| CircuitBreaker.TotalsCount | services/agent-gateway/src/aidp_agent/router.py:124-137 | The diagnostic counters count all successes and all failures ever recorded |
| Registry.ProviderRegistry.Register | services/agent-gateway/src/aidp_agent/providers/registry.py:152-171 | Dictionary and both indexes afterwards are those of `Registered` |
| Registry.ProviderRegistry.Unregister | services/agent-gateway/src/aidp_agent/providers/registry.py:173-185 | Dictionary and both indexes afterwards are those of `Unregistered`; an unknown name changes nothing |
| Registry.RegisterKeepsAgreement | services/agent-gateway/src/aidp_agent/providers/registry.py:152-171 | Registering keeps every lookup equal to a scan of the dictionary, in order, if and only if the name is new or the very same object is registered again |
| Registry.UnregisterKeepsAgreement | services/agent-gateway/src/aidp_agent/providers/registry.py:173-185 | Unregistering does if and only if the name is unknown or the provider has a model in its default tier |
| Registry.CarefulRunsAgree | services/agent-gateway/src/aidp_agent/providers/registry.py:152-209 | So lookups equal scans after any run of such changes |
| RegistryRuns.PutReplaces | services/agent-gateway/src/aidp_agent/providers/registry.py:155 | Registering under a taken name replaces the provider where it stands in the dictionary |
| RegistryRuns.RegisterAppends | services/agent-gateway/src/aidp_agent/providers/registry.py:155 | Registering under a new name appends it |
| RegistryRuns.WithoutFilters | services/agent-gateway/src/aidp_agent/providers/registry.py:176 | Unregistering takes out the provider of that name and keeps the order of the others |
| RegistryRuns.DictionaryIsLastWord | services/agent-gateway/src/aidp_agent/providers/registry.py:152-198 | After any changes at all, a name stands for the object it was last registered with, if it was not unregistered since |
| RegistryRuns.LookupsMean | services/agent-gateway/src/aidp_agent/providers/registry.py:152-209 | After careful changes a lookup has exactly the registered providers with a spec for the model, or with a spec in the tier or that tier as default, in dictionary order |
| Pricing.TierOfRequest | services/agent-gateway/src/aidp_agent/router.py:493-499 | An explicit tier wins over the task's, and with neither the balanced tier is used |
| Pricing.CheapestIsLeast | services/agent-gateway/src/aidp_agent/router.py:60-72 | The model a provider is priced at is one of its own that no other of them undercuts |
| Pricing.LeqIsAnOrder | services/agent-gateway/src/aidp_agent/router.py:309 | The sort key (output price, then input price, then name) compares any two providers, and ties only equal keys |
| Pricing.SortedSorts | services/agent-gateway/src/aidp_agent/router.py:280-283 | The chain is a permutation of the candidates, cheapest first |
| Router.Router.PollBreaker | services/agent-gateway/src/aidp_agent/router.py:229-240 | Looks up or creates a provider's breaker and evaluates it, leaving every other breaker alone |
| Router.Router.CandidatesFor | services/agent-gateway/src/aidp_agent/router.py:481-496 | Polls the pool in order and keeps the providers not found open |
| Router.PollPoolMeans | services/agent-gateway/src/aidp_agent/router.py:486-495 | With distinct names the candidates are the pool filtered by each provider's own breaker, and each was polled once |
| Router.Router.TryProvider | services/agent-gateway/src/aidp_agent/router.py:329-380 | One link of the chain: skipped if open, else called once and charged its outcome |
| Router.OpenIsNotCalled | services/agent-gateway/src/aidp_agent/router.py:328-380 | On any chain, whatever the names: a provider whose breaker is open is polled and skipped, any other is called once and charged exactly its own outcome |
| Router.Router.RouteAndCall | services/agent-gateway/src/aidp_agent/router.py:326-389 | Result, calls made and breakers afterwards are those of `Route`, for any registry content |
| Router.WalkIsRight | services/agent-gateway/src/aidp_agent/router.py:328-380 | From any point of the chain with only transient failures behind it, the rest of the walk completes a correct request |
| Router.RouteIsRight | services/agent-gateway/src/aidp_agent/router.py:266-389 | With distinct provider names: the request is settled by the least candidate by (output price, input price, name) that is not open and does not fail transiently; the providers called are exactly those up to it, each once, cheapest first; each is charged its own outcome and every other breaker is at most polled; and the two failures with no provider are characterised too |
| RoutingByPrice.OrderIsByPrice | services/agent-gateway/src/aidp_agent/router.py:303-309 | The chain's order is that of the providers' own price lists: output cost, then input cost, of the first entry for the model named or else of an entry nothing undercuts, then the name in dictionary order |
| RoutingByPrice.RouteIsByPrice | services/agent-gateway/src/aidp_agent/router.py:266-389 | The routing law without the sort key: providers whose breakers are not open are called in that order, each once, as long as they fail transiently; the first that does not settles the request; each call is charged to its own provider's breaker and nobody else's changes but by the poll |
| Router.AgreedPoolsAreUnique | services/agent-gateway/src/aidp_agent/providers/registry.py:201-209 | A registry whose indexes agree with its dictionary hands the router the suitable registered providers, of distinct names |
| Router.RoutesOverRegistered | services/agent-gateway/src/aidp_agent/router.py:266-389 | Registry and router composed: after any run of careful registry changes a request is settled as `Router.RouteIsRight` says, among all registered providers that serve its model or tier |
| Metering.MeteringDispatcher.Start | services/agent-gateway/src/aidp_agent/metering.py:358-363 | Installs a worker if there is none |
| Metering.MeteringDispatcher.Record | services/agent-gateway/src/aidp_agent/metering.py:379-407 | Queues the record, drops it if the queue is full, or writes it at once without a worker |
| Metering.MeteringDispatcher.StopBegin | services/agent-gateway/src/aidp_agent/metering.py:365-375 | Closes, and queues a sentinel if there is a worker and room |
| Metering.MeteringDispatcher.StopEnd | services/agent-gateway/src/aidp_agent/metering.py:376-377 | Forgets the worker once it has ended |
| Metering.MeteringDispatcher.WorkerGet | services/agent-gateway/src/aidp_agent/metering.py:447-452 | Takes the head of the queue; a sentinel ends the worker |
| Metering.MeteringDispatcher.WorkerWritten | services/agent-gateway/src/aidp_agent/metering.py:453-458 | The record in flight counts as handed over whether or not the sink raised |
| Metering.StepConserves | services/agent-gateway/src/aidp_agent/metering.py:358-458 | Every step keeps: accepted records are the handed ones, then the one in flight, then the queued ones, in order and once each; recorded is accepted plus dropped; the queue is within its bound |
| Metering.RunConserves | services/agent-gateway/src/aidp_agent/metering.py:358-458 | So does every interleaving of requests, worker and stops |
| Metering.RecordIsAccounted | services/agent-gateway/src/aidp_agent/metering.py:395-407 | With a worker a record is dropped exactly if the queue is at its bound and queued last otherwise; without one it is written directly |
| Metering.RunAccounts | services/agent-gateway/src/aidp_agent/metering.py:379-407 | Over any run every record ever made was accepted, dropped or written directly, once |
| Metering.UnboundedDropsNothing | services/agent-gateway/src/aidp_agent/metering.py:350 | A queue without a bound never drops a record |
| Metering.StopIsComplete | services/agent-gateway/src/aidp_agent/metering.py:365-377 | When a stop returns, everything accepted before it has been written if and only if, when it began, no record stood behind an earlier sentinel or an ended worker |
| Metering.LoneStopDrains | services/agent-gateway/src/aidp_agent/metering.py:365-377 | In a run whose stops do not overlap, a stop that finds a worker returns only after all records accepted before it are written |
| Metering.StopCanReturn | services/agent-gateway/src/aidp_agent/metering.py:370-377 | A stop can return without another one's help if and only if there is no worker, it has ended, the queue has room for the sentinel, or one is queued already |
| Metering.OverlappingStopsLoseARecord | services/agent-gateway/src/aidp_agent/metering.py:365-377 | Two overlapping stops after which a record accepted before the second was never written |

## Left out

- The Kafka transport, HTTP clients and servers, gRPC, MCP, connectors, the web app, migrations, logging and tracing: input and output or library behaviour.
- Encryption of audit payloads and token signatures: a ciphertext is an opaque value carried with its row.
- The SQL engine: conflict and uniqueness rules of the three inserts are assumed as the statements state them; a session that raises leaves the tables unchanged; no second writer runs during a transaction.
- Field extraction, action, outcome and severity of audit rows: single-branch helpers, carried as one opaque column.
- Rounding of doubles, and of numbers written to Redis as text; key eviction is modelled to the millisecond.
- The gateway's handling of an unreachable Redis, its bypass list and its response headers: one branch each.
- EventLog.InMemoryTransport.Poll: is one topic of the list a pass goes through, because `consume_events` subscribes to one topic.
- The consumer's pauses between attempts, which change no state; the producer's are modelled.
- Closing the transport, its wake-up events and the poll timeout: waiting changes no state.
- A cancellation is modelled as a crash of the consumer; a handler's own effects are outside the model.
- Payloads that are valid JSON but of the wrong shape, and failing usage validation, in the provider stream: they raise out of the stream.
- Streaming routes (`route_and_stream`), which count a completed stream as two successes; and the charge for failed-over calls: not needed by the failover property.
- Router.Router.RouteAndCall: leaves out the resolved model name (whose choice of provider sorts by other keys than the chain) and the details of the errors raised; neither affects which provider settles the request.
- Requests that interleave while one of them is awaiting a provider: the failover property is about a request that has the breakers to itself from its first poll to its end.
- Per-tenant API keys, and `stop` of the registry: plain dictionary updates.
- Cost calculation and the sinks of the metering records; `drain`, a helper that bypasses the worker; cancellation of the worker task.
- Metering.MeteringDispatcher.StopEnd: all stops that await one worker return in one step, so overlapping stops that wake at different times, with a start between them, are not modelled.
- Router.RouteIsRight: supposes distinct provider names in the pool, because providers of one name share a breaker; `Router.Router.RouteAndCall` has no such condition.
- GroupProtocol.NothingIsSkipped: is safety only; that a cursor ever advances depends on the scheduler and the handlers.
