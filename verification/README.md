# A verified model of the Bybit client

This project models the parts of the client that are state machines or algorithms with guarantees of their own, and
proves those guarantees with Dafny 4.11. `dafny verify dfyconfig.toml` checks all of it.

**The self-healing WebSocket session.** `SessionModel.dfy` states the session as a machine: its fields, the completions
and posted handlers the io runtime still owes it (each completion tagged with the generation it captured), the posts user
threads still owe, and a history of every connection's frames. One step is one strand handler, one lock-protected region
of a user thread, one post, or a drop of the transport. Any pending completion may arrive at any time and may succeed or
fail, so completions that arrive between an error and the next connect, and stale ones of older connections, are all
included. `WebSocketSession.dfy` holds the object itself, a class with the fields the handlers update in place; whatever
happens next, it is proved to take exactly the machine's step, so what holds after every run of the machine holds of the
object. The other `Session*.dfy` files prove what holds in every state of every run: one driver (`SessionDriver`), write
discipline (`SessionPump`), the topic book (`SessionTopics`), acknowledgement (`SessionAcks`), ids across reconnects
(`SessionEffects`), attribution (`SessionVenue`), agreement with the venue's own verdicts (`SessionAgreement`,
`SessionPatience`), heartbeat (`SessionHeartbeat`), backoff (`SessionBackoff`) and healing (`SessionProgress`,
`SessionRecovery`). `SessionTransitions` says of every event what it does to the connection, its frames and its timers.
`PrivateStream.dfy` puts the gateway's "is the stream live" check on top, and `ResubscribeRace.dfy`
holds the run in which a confirmed topic is no longer streamed.

**Paged downloads.** `HistoryDownload.dfy` is the candle download with its gap probing, trimming and popping, run
against the venue's window rules in `KlineVenue.dfy` and the calendar in `CandleCalendar.dfy`. `FundingDownload.dfy` and
`ExecutionListing.dfy` are the other two paginators.

**Cancel-time reconciliation.** `CancelReconciliation.dfy` is `cancel` with the fill consumer it calls back into;
`GatewayErrors.dfy` and `ErrorReasons.dfy` are the error typing below it, down to the printed text and its parsing
(`Decimal.dfy`).

**Two arithmetic pieces.** `RateLimiting.dfy` is the rate limiter with its sliding window, `StepDecimals.dfy` the decimal
places of an instrument step.

## Assumptions

- `run()` is called once per session. Nothing but a user close cancels the reconnect timer, nor the ping timer of a
  connection that is up. A completion handler is called once.
- Claims about attribution and about what the venue streams assume that the k-th subscribe reply of a connection answers
  the k-th subscribe op written on it and that a `req_id`, when present, is that op's (`SessionVenue.OrderlyRun`). What the
  venue streams is then computed from its own verdicts, at every point it may have reached on the connection; the replies
  received so far are the first of these verdicts. All other session claims hold for any replies.
- The kline venue answers a request with `end` by the newest `limit` candles at or before it; an open-ended one is anchored
  `limit - 1` intervals after `start` and, when nothing lies at or before that anchor, draws the earliest candles. The loop
  reads an empty open-ended answer as the end of history, so the last part is needed: a venue that answers a `start` before
  the first listing with nothing would end the download at once. The candles do not change during one download; they do not
  overlap, and monthly candles open at month starts.
- The funding venue answers the newest `limit` records of the range, newest first. Records have distinct timestamps.
- The clock of the rate limiter does not run backwards and a sleep lasts at least as long as asked.
- The fill consumer counts a fill id once, and the venue's trades have distinct ids.

## Findings

- `getFundingRates` documents `startTime` as inclusive. The guard `startTime < endTime` before each request misses the
  record at `startTime` when the range is that single instant, or when the record one millisecond later is the oldest of a
  full page (`FundingDownload.SingleInstantIsSkipped`, `OldestIsSkipped`). `ExactUnlessMissed` proves that the download is
  complete in all other cases and only then; `SpacedRecordsAllArrive` shows that two milliseconds between records are enough.
- Code 170007 is typed as an unknown outcome by the REST client, but the gateway's text test does not match it, so submit,
  amend and reduce-only market report it as a definitive reject. The two are documented to be kept in sync.
  `GatewayErrors.UnknownYetRejected` states exactly where they part; `KnownYetPassedOn` shows the reverse for codes that
  only start with 10000.
- An HTTP 200 answer whose body cannot be read says nothing about the order, yet it is reported as a definitive reject too
  (`GatewayErrors.UnreadableIsRejected`). `OpenYetRejected` gives the exact condition for all open outcomes: the status is
  200 and the body unreadable, or the code is 170007, or the status is 500 or more without starting with 5, and in each case
  the text is silent.
- The local rate limit of ten per second is not kept: eleven calls can return at the same millisecond
  (`RateLimiting.TenIsNotTheBound`), because the stamp pushed is the one from before the sleep. Eleven is the bound for every
  window (`ElevenPerWindow`). Ten is the bound exactly for the windows that open with a call let through at once
  (`TenExactlyAfterPrompt`).
- `decimalPlacesFromStep` is not exact for all steps: 9.99999999 gets no places (`StepDecimals.UnitsBoundIsSharp`), nor does
  one unit of the twelfth place. `ExactWhenClear` states exactly which steps get their own number of places: those of at most
  twelve whose units stay clear of the whole numbers at every place before. All steps of up to eleven places and below
  999999999 units are among them (`PlacesExact`), some larger ones too (`LargeStepCanBeExact`).
- A topic subscribed again before its posted unsubscribe has run can count as confirmed while the venue has dropped it
  (`ResubscribeRace.ConfirmedButDropped`). `SessionPatience.AgreesExactlyWhenPatient` gives the condition a caller can keep:
  confirmed and streamed agree in every patient continuation if and only if no unsubscribe of the topic was owed when it was
  subscribed. The private stream never unsubscribes, so its health gate is not affected
  (`PrivateStream.PrivateStreamIsPatient`).

## Model

| member | source | states |
|---|---|---|
| SessionDriver.NeverStuck | src/bybit_ws_session.cpp:275-666 | in every state of every run before a user close there is exactly one driver: the posted start, one connect-stage operation of the current generation, one read on a connected session, or one reconnect wait |
| SessionDriver.StepKeepsLive | src/bybit_ws_session.cpp:610-666 | every handler, user region and post keeps the one-driver invariant, with late, failed and stale completions |
| SessionDriver.ClosedForGood | src/bybit_ws_session.cpp:668-701 | once the user close has run, no run starts another connection |
| SessionDriver.CloseTakesHold | src/bybit_ws_session.cpp:668-701 | a close asked for can run, and no connection is opened in any run after it |
| SessionHeartbeat.AlwaysBeating | src/bybit_ws_session.cpp:577-606 | in every state of every run before a user close a connected session has exactly one ping wait of its connection |
| SessionHeartbeat.OverdueTickReconnects | src/bybit_ws_session.cpp:587-596 | in every run, the tick of a connected session that comes 61 s or more after the last pong (either form) or handshake, or more than 15 s after the handshake without the auth reply, can happen, schedules the reconnect and keeps the book |
| SessionHeartbeat.PunctualTickPings | src/bybit_ws_session.cpp:587-606 | any other tick queues exactly one ping on the same connection, with the same flags and topics, and leaves one wait for the next |
| SessionHeartbeat.StampsTracked | src/bybit_ws_session.cpp:354-397 | in every run before a user close the two stamps the session keeps are those times |
| SessionTransitions.LinkMoves | src/bybit_ws_session.cpp:255-701 | whichever handler runs, each flag of the connection changes exactly on the events named: dialling, coming up, auth success, giving up, the end of a wait, a user close, a drop |
| SessionTransitions.LostExactlyWhenBroken | src/bybit_ws_session.cpp:610-666 | a session gives its connection up if and only if a stage, write or read of the current connection fails, a frame does not parse, credentials are refused or a tick comes late; it then waits to dial again |
| SessionTransitions.FramesQueued | src/bybit_ws_session.cpp:118-302 | exactly which frame each event queues, and that no other is queued |
| SessionTransitions.TimersMove | src/bybit_ws_session.cpp:460-512 | how each event moves the backoff, the pong stamp and the auth deadline: among them, any frame heard by an operational session starts the backoff over |
| SessionPump.WriteDiscipline | src/bybit_ws_session.cpp:118-162 | in every state of every run: at most one write per connection is outstanding, written frames are an in-order prefix of the frames queued for that connection, on a credentialed session auth comes first and no subscribe was queued before its reply, and a connected open session with frames queued has a write in flight |
| SessionPump.StepPumping | src/bybit_ws_session.cpp:129-162 | each step keeps that discipline, on the current and all earlier connections |
| SessionTopics.BookIsOrderedSet | src/bybit_ws_session.cpp:166-250 | in every run the book has no duplicates, topics count as sent only on an operational connection, and pending topics on an operational session have a flush posted or about to be posted |
| SessionTopics.StepBooked | src/bybit_ws_session.cpp:552-556 | one step is one step of an ordered set: subscribe appends, unsubscribe and an attributed rejection remove, flush, error and reconnect leave the sequence as it is |
| SessionTopics.EraseEachIsMinus | src/bybit_ws_session.cpp:552-556 | erasing the first occurrence of each rejected topic removes exactly those topics |
| WebSocketSessions.WebSocketSession.IsBooked | src/bybit_ws_session.cpp:194-202 | `isSubscribed` is membership in the book |
| SessionAcks.AlwaysSound | src/bybit_ws_session.cpp:219-250 | every run keeps all session invariants together, among them: every op of a connection is in flight or credited and never both |
| SessionEffects.StepEffect | src/bybit_ws_session.cpp:118-302 | whichever handler runs, a step queues nothing, or one auth, ping or owed unsubscribe, or one op for all pending topics under the next number, or starts a fresh connection |
| SessionEffects.StepPosts | src/bybit_ws_session.cpp:727-744 | unsubscribes owed are conserved: one more for an unsubscribe of a sent topic, one fewer when a posted one runs |
| SessionEffects.IdsGrowAcrossReconnects | src/bybit_ws_session.cpp:241-245 | in every run subscribe ids grow along a connection, and every id on a connection is below every id on a later one |
| SessionAcks.ConfirmedMeansAcknowledged | src/bybit_ws_session.cpp:204-215 | a confirmed topic implies an operational connection on which every op naming it has been answered and the latest one succeeded |
| SessionVenue.NamedReply | src/bybit_ws_session.cpp:529-563 | in whatever order replies come, one with the id of an op in flight answers that op and touches no other |
| SessionVenue.StrayReply | src/bybit_ws_session.cpp:540-545 | a reply with any other id, late or foreign, answers nothing |
| SessionVenue.DeliveryIsExact | src/bybit_ws_session.cpp:529-545 | with or without `req_id`, success or failure, a reply is credited to the op it answers |
| SessionVenue.AttributionIsExact | src/bybit_ws_session.cpp:523-563 | in every run against a venue that answers in order, the k-th reply of a connection was credited, with its own result, to the k-th op |
| SessionAgreement.CreditedWasAccepted | src/bybit_ws_session.cpp:529-563 | an op the session credits as a success is one the venue accepted, by the venue's own verdicts and wherever it has got to |
| SessionAgreement.ConfirmedVersusVenue | src/bybit_ws_session.cpp:207-215 | for a confirmed topic, the venue streams it if and only if it has seen no unsubscribe for it after its latest subscribe, for all its verdicts and every point it may have reached |
| SessionAgreement.ConfirmedIsStreamed | src/bybit_ws_session.cpp:204-215 | in every run in which no topic is subscribed while an unsubscribe of it is owed, a confirmed topic is one the venue streams, for all its verdicts and every point it may have reached |
| SessionAgreement.NeverUnsubscribingIsPatient | src/bybit_ws_session.cpp:727-744 | a run that never unsubscribes is such a run |
| SessionPatience.AgreesExactlyWhenPatient | src/bybit_ws_session.cpp:719-744 | after a subscribe in such a run, confirmed and streamed agree in every patient continuation if and only if no unsubscribe of the topic was owed; otherwise some continuation ends with the topic confirmed and dropped |
| ResubscribeRace.ConfirmedButDropped | src/bybit_ws_session.cpp:719-744 | a concrete run: subscribed again before the posted unsubscribe ran, the topic is confirmed and the venue has dropped it, whatever its verdicts |
| SessionBackoff.BackoffSchedule | src/bybit_ws_session.cpp:649-651 | in every run the delay is one of 1, 2, 4, 8, 16, 30 and the n-th retry since the last reset waited min(2^(n-1), 30) seconds |
| SessionBackoff.NoConnectStorm | src/bybit_ws_session.cpp:393-397 | on a credentialed session, in any stretch without an auth success of the connection of the moment, the n-th reconnect scheduled (n >= 5) does not begin until 31 + 30 (n - 5) seconds after the stretch did, whatever handshakes completed and frames arrived |
| SessionProgress.StepRank | src/bybit_ws_session.cpp:275-666 | while operations succeed and replies are positive, every completion that drives the session lowers the rank by one, nothing else changes it, and the book stays as it is |
| SessionProgress.HealedAtZero | src/bybit_ws_session.cpp:204-215 | the rank is zero if and only if every booked topic is confirmed on an operational connection with an open transport and no reply is owed |
| SessionProgress.NeverStalls | src/bybit_ws_session.cpp:129-162 | until then a driving completion, the end of a write with frames queued behind it, or the post of an owed flush can happen next |
| SessionProgress.HealsByRank | src/bybit_ws_session.cpp:634-666 | for every such continuation of every run before a user close, with or without credentials: it holds at most as many driving completions as the rank says (at most 8 unless operational), has healed the session if and only if it holds that many, and can go on if it has not |
| SessionRecovery.FirstConnection | src/bybit_ws_session.cpp:752-766 | from the start there is such a run, with six driving completions without credentials and seven with them |
| SessionRecovery.SelfHealing | src/bybit_ws_session.cpp:634-666 | from every reachable state before a user close, whatever replies came, a healing continuation exists, with as many driving completions as the rank says; it breaks a connection first only if its replies were out of order |
| WebSocketSessions.WebSocketSession.Take | src/bybit_ws_session.cpp:118-771 | whatever can happen next - any completion, posted handler, locked user region, post, pong or drop of the transport - the object takes the machine's step and keeps all session invariants |
| WebSocketSessions.WebSocketSession.Serve | src/bybit_ws_session.cpp:704-771 | a session constructed, run and taken through any run of the machine is in the machine's state after that run |
| WebSocketSessions.WebSocketSession.Run | src/bybit_ws_session.cpp:752-766 | refuses an empty filter, else books it and posts the first connect: the machine's initial state |
| WebSocketSessions.WebSocketSession.IsConfirmed | src/bybit_ws_session.cpp:207-215 | true if and only if the topic is sent and no op in flight names it |
| WebSocketSessions.WebSocketSession.TakeOp | src/bybit_ws_session.cpp:232-245 | all pending topics become one op in flight under the next number |
| WebSocketSessions.WebSocketSession.Requeue | src/bybit_ws_session.cpp:634-639 | puts the sent topics in front of the pending ones, in order |
| WebSocketSessions.WebSocketSession.OldestKey | src/bybit_ws_session.cpp:535-538 | finds the numerically least id among the text keys |
| WebSocketSessions.WebSocketSession.FindTarget | src/bybit_ws_session.cpp:535-545 | the op a reply answers: its own by id, the oldest for a reply without one, none otherwise |
| WebSocketSessions.WebSocketSession.EraseTopics | src/bybit_ws_session.cpp:552-556 | erases the first occurrence of each topic of a rejected op |
| PrivateStream.IsLive | src/bybit_ws_private_stream_manager.cpp:90-104 | answers the three conditions as they were on entry and asks again for any topic in neither book |
| PrivateStream.LiveMeansEventsFlow | src/bybit_ws_private_stream_manager.cpp:90-104 | in a patient run, against a venue that answers in order, a live session is operational and the venue streams order and execution events on it, for all its verdicts and every point it may have reached |
| PrivateStream.PrivateStreamIsPatient | src/bybit_ws_private_stream_manager.cpp:90-104 | the same for every run that never unsubscribes, as the private stream does |
| PrivateStream.UnheardOrdersAreThrottled | src/bybit_execution_gateway.cpp:194-201 | unless events flow in that sense, submit and amend are throttled at the gate whatever the venue would have answered |
| PrivateStream.NothingStaysDeaf | src/bybit_ws_private_stream_manager.cpp:93-99 | after the check both topics are booked, earlier bookings keep their place, and a new one has its flush posted |
| PrivateStream.LiveExactlyWhen | src/bybit_ws_private_stream_manager.cpp:90-104 | in every run the session is live if and only if both topics are confirmed |
| PrivateStream.HealedIsLive | src/bybit_ws_private_stream_manager.cpp:90-104 | a credentialed session that has healed with both topics booked is live |
| PrivateStream.LiveAgain | src/bybit_execution_gateway.cpp:194-201 | from every state of every run before a user close, once the check has run, a run without the user leads to a live session, on which submit and amend are answered like the ungated market close |
| CandleCalendar.ResolutionIsLength | src/bybit.cpp:12-89 | a resolution stands for an interval if and only if the interval lasts that many minutes |
| CandleCalendar.NextMonth | src/bybit_rest_client.cpp:31-35 | from anywhere inside a Gregorian month, the next monthly candle opens with the following month |
| CandleCalendar.NextOnGrid | src/bybit_rest_client.cpp:26-29 | a fixed interval's next candle opens that many minutes later, and none on its grid is skipped |
| CandleCalendar.NoMonthSkipped | src/bybit_rest_client.cpp:31-35 | no month starts strictly between a time and its next monthly candle |
| CandleCalendar.NextMonotone | src/bybit_rest_client.cpp:26-36 | later opens have later or equal next candles |
| CandleCalendar.NextCandleStart | src/bybit_rest_client.cpp:26-36 | the next candle opens strictly later |
| CandleCalendar.MonthsAgainstThirtyDays | src/bybit.cpp:12-43 | n consecutive calendar months last at least 30 n - 2 days |
| KlineVenue.WindowFitsOneAnswer | src/bybit_rest_client.cpp:536-543 | for every interval and every `from`, aligned or not, [from, from + (limit - 1) intervals] holds at most `limit` candle starts, months included |
| KlineVenue.KlineAnswers | src/bybit_rest_client.cpp:393-423 | either kind of request answers with a run that reaches from at or before the first candle at `from` to a later one, or shows that nothing opens in the window |
| HistoryDownload.Probe | src/bybit_rest_client.cpp:536-554 | terminates; scans full windows side by side, finds the first whose answer reaches `from` without passing over a candle, or shows that nothing opens up to `to` |
| HistoryDownload.Ready | src/bybit_rest_client.cpp:534-560 | after probing and trimming a batch is the next candles, at least one, starting at the first one at `from` |
| HistoryDownload.GetHistoricalPrices | src/bybit_rest_client.cpp:502-600 | terminates for every gap pattern; the result is the complete run up to `to` and equals the writer batches filtered by `start <= to`; the batches hold everything before the newest candle of the last answer if that one ends after `to`, else everything, and then the venue's newest candle has ended or opens later; open-ended requests start strictly later each time and all but the last at or before `to` |
| HistoryDownload.OpenCandleHeldBack | src/bybit_rest_client.cpp:562-567 | the venue's newest candle, if still open at `to`, is neither returned nor written |
| HistoryDownload.ReturnedExactlyWhen | src/bybit_rest_client.cpp:562-590 | where the last answer reaches past `to`, a candle in range is returned if and only if it opens before the newest of that answer |
| HistoryDownload.CompleteMeans | src/bybit_rest_client.cpp:562-590 | a complete run is strictly ascending, lies in [from, to], holds every candle that ends by `to`, and omits at most one candle in range |
| FundingDownload.GetFundingRates | src/bybit_rest_client.cpp:1128-1153 | terminates; returns the records in [start, end] in ascending order, without the oldest exactly in the missed case |
| FundingDownload.ExactUnlessMissed | src/bybit_rest_client.cpp:1137-1149 | the result is sound, and complete if and only if the missed case does not apply |
| FundingDownload.SpacedRecordsAllArrive | src/bybit_rest_client.cpp:1137-1149 | with start < end and records two milliseconds apart nothing is missed |
| FundingDownload.OldestIsSkipped | src/bybit_rest_client.cpp:1143-1148 | two records a millisecond apart, one to a page: the older one is missed |
| FundingDownload.SingleInstantIsSkipped | src/bybit_rest_client.cpp:1137-1139 | a record at the only instant asked for is missed |
| FundingDownload.SortIsIdentity | src/bybit_futures_exchange_connector.cpp:132-143 | sorting an ascending list by time, with any algorithm, changes nothing |
| ExecutionListing.GetExecutions | src/bybit_rest_client.cpp:976-1047 | for any venue: at most 20 requests; a normal return is every page up to the empty cursor in order; every other case is the error that stopped it |
| ExecutionListing.NormalExactlyWhenEnded | src/bybit_rest_client.cpp:1020-1044 | the listing is normal if and only if one of the first 20 pages ends it and all before it continue |
| ExecutionListing.CycleNeverEnds | src/bybit_rest_client.cpp:1027-1037 | on a venue that pages by cursor alone, a listing that comes back to an earlier cursor never returns normally |
| ExecutionListing.WholeOrNothing | src/bybit_rest_client.cpp:979-983 | a venue with offset cursors: up to 2000 executions are listed whole, more are never passed off as complete |
| RateLimiting.RateLimiter.constructor | src/bybit_rest_client.cpp:76-85 | a fresh limiter is in local mode with no stamps |
| RateLimiting.RateLimiter.Update | src/bybit_rest_client.cpp:87-106 | server mode starts with the first fully parsed pair of headers and never ends; a bad reset time leaves the new status |
| RateLimiting.RateLimiter.PopOld | src/bybit_rest_client.cpp:125-127 | drops exactly the outdated front |
| RateLimiting.RateLimiter.Wait | src/bybit_rest_client.cpp:108-152 | how long the caller is put to sleep in either mode and which stamps remain |
| RateLimiting.HeldUntilReset | src/bybit_rest_client.cpp:113-122 | in server mode a call returns before the reset if and only if more than two requests are left, and a call held back returns 50 ms after the reset |
| RateLimiting.AlwaysTracked | src/bybit_rest_client.cpp:123-150 | in every local run the queue is the tail of the stamps taken, at most ten, and a stamp that is gone is more than a second old |
| RateLimiting.QueueSorted | src/bybit_rest_client.cpp:123-150 | the queue is sorted and never longer than ten |
| RateLimiting.TenthLater | src/bybit_rest_client.cpp:129-150 | a call returns more than 1000 ms after the stamp ten calls before it |
| RateLimiting.ElevenPerWindow | src/bybit_rest_client.cpp:129-150 | a closed window of 1000 ms holds at most eleven returns |
| RateLimiting.SleepBounded | src/bybit_rest_client.cpp:131-138 | no call is asked to sleep more than 1010 ms |
| RateLimiting.TenAfterPrompt | src/bybit_rest_client.cpp:129-150 | a window that opens with a call let through at once holds at most ten returns |
| RateLimiting.TenExactlyAfterPrompt | src/bybit_rest_client.cpp:129-150 | whatever calls follow, at most ten return within a second of the latest call if and only if that call was let through at once |
| RateLimiting.TenIsNotTheBound | src/bybit_rest_client.cpp:131-150 | a concrete run with eleven returns at the same millisecond |
| StepDecimals.DecimalPlacesFromStep | include/stonky/bybit/bybit_models.h:29-43 | the first number of places, up to 12, at which the scaled step passes for an integer |
| StepDecimals.ExactWhenClear | include/stonky/bybit/bybit_models.h:29-43 | for n / 10^k without a trailing zero the result is k if and only if k <= 12 and n stays further from every multiple of 10^d than the tolerance, for all d from 1 to k |
| StepDecimals.PlacesExact | include/stonky/bybit/bybit_models.h:29-43 | so it is for k <= 11 and n < 999999999 |
| StepDecimals.LargeStepCanBeExact | include/stonky/bybit/bybit_models.h:37 | 150000000.5, beyond that region, gets its one place |
| StepDecimals.PlacesNeeded | include/stonky/bybit/bybit_models.h:20-28 | p places write every multiple of the step without rounding if and only if p >= k |
| StepDecimals.UnitsBoundIsSharp | include/stonky/bybit/bybit_models.h:37 | 9.99999999 gets no places |
| StepDecimals.PlacesBoundIsSharp | include/stonky/bybit/bybit_models.h:37 | one unit of the twelfth place gets no places |
| ErrorReasons.CodeRoundTrip | src/bybit_execution_gateway.cpp:51-57 | for every code and every message text, parsing the printed error gives back the code |
| ErrorReasons.ListedCodeDecides | src/bybit_execution_gateway.cpp:63-90 | a listed code decides the reject kind, and a gone code "order gone", whatever the text |
| ErrorReasons.KindOfAnswer | src/bybit_execution_gateway.cpp:63-122 | the kind of an error answer for every code and message: the seven listed codes, and for any other code the message alone; nothing in the text around it is read as a keyword |
| ErrorReasons.GoneAnswer | src/bybit_execution_gateway.cpp:126-142 | an error answer says the order is gone if and only if its code is 110001, 110008 or 110010, or has 110001 in it, or its message says so |
| ErrorReasons.GoneStatus | src/bybit_execution_gateway.cpp:126-142 | an HTTP error says the order is gone if and only if its body does, or the status has 110001 in it |
| ErrorReasons.AmbiguousAnswer | src/bybit_execution_gateway.cpp:150-153 | an error answer counts as open if and only if its code starts with 10000 or 10016 or its message text reads like one |
| ErrorReasons.AmbiguousStatus | src/bybit_execution_gateway.cpp:150-153 | an HTTP error counts as open if and only if its status starts with 5 or its body reads like one |
| GatewayErrors.RejectedExactlyWhen | src/bybit_execution_gateway.cpp:488-505 | submit, amend and reduce-only market do the same: they throw nothing if and only if the answer is a 200 with code 0; they report a reject, with the client's text and the kind read from it, if and only if the request was never sent or the answer denies it outright, or the answer is unreadable and its complaint silent; any other exception passes untouched |
| GatewayErrors.TypedExactly | src/bybit_rest_client.cpp:39-74 | the client types an outcome as unknown exactly when it is open, unless the answer cannot be read, and an order as not found exactly on code 110001 or 170213 |
| GatewayErrors.OpenYetRejected | src/bybit_execution_gateway.cpp:498-503 | exactly when an outcome the answer leaves open is reported as a reject: an unreadable answer, code 170007, or a status of 500 or more that does not start with 5, with a silent text |
| GatewayErrors.UnreadableIsRejected | src/bybit_rest_client.cpp:56-58 | a concrete answer cut off in transit leaves the outcome open and is reported as a reject |
| GatewayErrors.UnknownIsNeverRejected | src/bybit_execution_gateway.cpp:561-582 | codes 10000 and 10016, every 5xx status and every transport error are passed on as unknown, whatever the text |
| GatewayErrors.ListedKind | src/bybit_execution_gateway.cpp:63-90 | a denial by error code is reported by all three with the kind its code is listed under, or, for an unlisted code, the kind of its message |
| GatewayErrors.UnknownYetRejected | src/bybit_rest_client.cpp:39-46 | exactly when an outcome typed as unknown is reported as a reject: code 170007 with a silent text, or a status of 500 or more that does not start with 5 |
| GatewayErrors.KnownYetPassedOn | src/bybit_execution_gateway.cpp:150-153 | code 100001 is typed as known and yet passed on as open |
| GatewayErrors.BackendTimeoutIsRejected | src/bybit_rest_client.cpp:43-46 | a concrete 170007 is typed as unknown and reported as a reject |
| CancelReconciliation.FillConsumer.OnFill | src/bybit_execution_gateway.cpp:203-212 | the consumer's book after a delivery: a fill id already credited changes nothing |
| CancelReconciliation.ReconcileMissedFills | src/bybit_execution_gateway.cpp:224-276 | succeeds if and only if both reads worked and the list does not fall short of the history; then every listed trade with an id is re-emitted in order, otherwise nothing is and the outcome is unknown |
| CancelReconciliation.GoneExactlyWhen | src/bybit_execution_gateway.cpp:528-548 | the handlers take an order for gone exactly on a readable denial with a gone code or text, on a bad status whose body reads so, or on a complaint that does; never on a transport error |
| CancelReconciliation.Cancel | src/bybit_execution_gateway.cpp:528-554 | true if and only if the answer is a 200 with code 0, false if and only if gone in that sense with its fills known, otherwise an exception, typed as by the other operations unless the order is gone; nothing is emitted unless it returns false |
| CancelReconciliation.OnExecution | src/bybit_execution_gateway.cpp:356-371 | the stream delivers the trades of orders with a client id, field by field |
| CancelReconciliation.ReemittedAsStreamed | src/bybit_execution_gateway.cpp:254-268 | re-emitting an order's executions delivers, fill by fill and field by field, what the stream reports for them, less the fills without an id |
| CancelReconciliation.EachListedOnce | src/bybit_execution_gateway.cpp:254-268 | whatever the stream delivers before, during and after the re-emission, in any number, each listed trade is credited once at its quantity |
| CancelReconciliation.NeitherLostNorTwice | src/bybit_execution_gateway.cpp:239-250 | for any deliveries that include the re-emitted ones, the credited sum is at least the history's quantity less 1e-9, and exactly the listed quantity if the stream delivered nothing else |
| CancelReconciliation.GoneMeansAllRead | src/bybit_execution_gateway.cpp:216-223 | an order reported gone has had all its executions read |
| CancelReconciliation.ReemittedIsReported | src/bybit_execution_gateway.cpp:254-268 | whatever part of an order's executions is re-emitted, each delivery is the stream's report of one of its trades |
| CancelReconciliation.GoneMeansAllCredited | src/bybit_execution_gateway.cpp:203-276 | end to end: the quantity credited for an order reported gone is exactly what the venue executed for it, whatever the stream reported of it, late, twice or never |

## Left out

- Network, TLS, DNS, HTTP, signing and compression: only the success or failure of their completions, and the parsed parts
  of their answers, enter the model.
- JSON field reading: a received frame enters as its kind, `op`, `success`, pong text and `req_id`; `fromJson` and `toJson`
  are not modelled.
- Integer width: generations, request ids, times and sums are unbounded integers; wrap-around of `int` and `int64` and the
  saturation of `strtol` are not modelled.
- Floating point: quantities and steps are reals, so rounding inside `decimalPlacesFromStep` and inside the summed
  quantities is not modelled, nor is `llround` beyond 64 bits.
- The moments between the single readings of `isLive`: the method runs them without interleaving, although the source takes
  the lock anew for each.
- State after a user close beyond "no new connection": the flags the source leaves set there are left as they are.
- `Close` and `closeByUser` model the flag alone; closing or aborting the transport shows up as completions that fail.
- `WSPrivateStreamManager::connect` and the gateway's start-up polling: they subscribe both topics and wait for `isLive`.
- The order update callback of the gateway (order status to order state) and `cancelStrayOrders`: a table and a loop over
  `cancel`.
- Texts of the exceptions thrown by the reconciliation: they name symbol and order, not the printed quantities; the
  underlying reason is not repeated.
- The venue's own cap on `limit` and the rate limiter's server mode over whole runs: its sleep is stated per call.
- The keyword table for reject texts without a listed code is the source's own (`KindOfText`); what is proved is where its
  words are looked for, not which words they are.
- Instrument, ticker and candle caches, enum tables, connectors beyond the funding sort, and the module factory.
- Agreement with the venue without the condition of patience: it is false there, as the findings say.
