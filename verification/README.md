# Upstash Redis Local: verified models

Upstash Redis Local is an HTTP server in front of a local Redis that behaves like Upstash's cloud
services. This project models the parts of it whose correctness is not visible in any single
function, in Dafny 4.11, and proves what they guarantee. `dafny verify dfyconfig.toml` checks it.

## What is modelled

**The QStash emulator** (`QStashModel`, `QStashSafety`, `QStashGuarantees`, `QStashTiming`,
`QStashSolo`, `QStashLiveness`, `QStashClaiming`, `QStashLoss`, `QStashSettling`, `QStashPasses`,
`QStashExhaustion`, `QStashOverlap`, `QStashExpiry`, `QStashWorker`, `QStashDlq`). A work queue kept in
Redis: a sorted set of due times, a record per message, a dead-letter list. The model is a transition
system whose actions are the single Redis calls, the two ends of a POST, clock readings, TTL expiry and
crashes, for any number of publish requests and delivery loops, interleaved in any way.
`QStashSafety.Inv` is the inductive invariant behind everything stated about any number of workers;
`QStashSolo` adds what the single loop of the program guarantees about time, and `QStashPasses` what it
gets done. `QStashWorker` is the program itself as classes with mutable messages: each method performs
its calls in the source's order, with arbitrary steps of everybody else between any two of them, and its
whole behaviour is proved to be a run of the transition system; `QStashDlq` does the same for looking at
the dead letters.

**Back-off arithmetic** (`GoInt`, `Backoff`). Delays in int64 nanoseconds, with the wrap-around.

**The rate limiter** (`RateLimiter`). The quota stage and the window stage of concurrent calls,
interleaved; bounds over whole runs.

**Replies** (`Base64`, `ReplyTree`, `Decimal`, `Resp2`). Slices of slices rewritten in place, first to
plain values and then to base64, also when one slice is held in several places, and what a client
decodes; RESP2 printing and a reader for it.

**Commands** (`Folds`, `Commands`, `Transactions`, `Gates`, `Json`, `Lines`, `Replay`). Redis is an
arbitrary deterministic machine with an arbitrary state. Paths, single commands, pipelines and
transactions run against it; the command log records and replays them. Strings are Go's: characters and
stray bytes.

**Keys and metrics** (`Dashboard`, `CliImport`, `CliServed`, `Metrics`). Scanning, exporting and
importing keys, the CLI's import also as the server runs it; the request counters under interleaving and
over days.

## Where the code does not do what its documentation says

- "A background worker ... claims each one so it is delivered exactly once" (docs/guides/qstash.mdx:105).
  At most one answer with a 2xx is received (`QStashGuarantees.AtMostOneSuccess`); a POST whose answer is
  lost, or later than the client's 10 seconds (internal/qstash.go:57), counts as failed and is repeated,
  so a destination may process a message several times. A process that stops inside a delivery leaves
  a message that is never POSTed again; unless only the last EXPIRE was missing it never ends as delivered
  or in the DLQ either, and it has been delivered exactly if the 2xx answer had already arrived:
  `QStashLoss.CrashLosesIff`. `QStashLoss.LossIsReachable` is a run that loses a message without any POST.
- "After `Upstash-Retries` attempts it moves to the DLQ" (docs/guides/qstash.mdx:111). It moves there after
  `Upstash-Retries` + 1 attempts, and until April 2050 only if that limit is at most 34. With a larger limit
  the 35th back-off overflows, the message gets a due time before 1970, and the scan from 0 upwards never
  returns it: `QStashExhaustion.DeadLetteredIffAtMost34`, `QStashClaiming.SoloClaimableIff`.
- "A per-second sliding window limit" (docs/guides/rate-limit-simulation.mdx:33). It is a fixed window
  that starts with a request: `RateLimiter.SlidingPromiseExact` says from which states the sliding
  promise holds.
- "Any error aborts the whole transaction" (docs/api/pipeline.mdx:117). Only errors before EXEC do:
  `Transactions.TransactionFailsIff`, `Transactions.ErrorsAbortNothing`, with an example in
  `Transactions.IncrementsCount`.
- "Capture every command your app issues, then replay the whole session" (docs/guides/testing-tools.mdx:65).
  Transactions are not logged, and a byte in a path that is not UTF-8 is logged as U+FFFD, which the replay
  then stores. The replay ends in the data of the session without its transactions if the paths are valid
  UTF-8, and only then if Redis keeps what it is told: `Replay.ReplayOfValidSession`,
  `Replay.ReplayAgreesIff`, with an example in `Replay.StrayByteIsLost`.
- The quota left "if today's local traffic had hit the cloud" (docs/guides/dashboard.mdx:34). The day is read
  before the lock is taken, so a request filed late around midnight makes the count of the new day start
  again: `Metrics.StragglerResetsTheDay`; `Metrics.TodayCountIff` says when the count is right.

## Assumptions

- QStash: Redis calls succeed, nobody else edits the `qstash:*` keys, and generated ids never repeat.
  Scores are exact integers, where Redis keeps doubles; they agree below 2^53 milliseconds. Whether a
  destination answers with a 2xx is left open for every POST; whether a request can be built at all
  is decided by the destination. The body stands for body and forwarded headers. A record whose TTL
  has run out disappears at that moment or later.
- Clocks never go back where a statement speaks about elapsed time.
- Commands: metrics and recorder are switched on. Redis answers a command according to its state, the
  caller and the command alone, and EXEC runs queued commands exactly as it would run them one by
  one; commands for which that is untrue (blocking reads, SUBSCRIBE, SELECT, MULTI itself) are
  outside of what the statements about transactions cover.
- JSON: a decoder yields valid strings, with U+FFFD for stray bytes in a body, and values that the encoder
  prints on one line; it reads a request back from what is printed for it, again with U+FFFD for stray
  bytes. Changing the case of a string treats a stray byte as U+FFFD, and printing a value gives none
  (`Replay.Decoder`).
- Counters other than the quota counter do not reach 2^63.
- JSON text is a sequence of Unicode scalar values, strings in Redis replies are bytes, and strings in
  requests are characters and stray bytes.

## Model

| member | source | states |
|---|---|---|
| QStashSafety.Keep | internal/qstash.go:93-186 | every single Redis call, POST, response, clock reading, expiry or crash, by any number of workers and publishers, keeps the invariant and changes the data of one message at most |
| QStashSafety.ReachableOk | internal/qstash.go:93-186 | the invariant holds in every state that any interleaving reaches |
| QStashGuarantees.ExactlyOnePlace | internal/qstash.go:93-186 | a published id is in exactly one of: being published, queued, held by a worker, delivered, dead-lettered, lost to a crash; it is never dropped by a failed load, and lost only if something crashed |
| QStashGuarantees.OneHolder | internal/qstash.go:105-111 | the ZREM claim is exclusive: no two workers ever process the same id, however their snapshots overlap |
| QStashGuarantees.AtMostOneSuccess | internal/qstash.go:131-177 | over every run, crashes included, a message has at most MaxRetries + 1 POSTs; a POST that did not fail is the last one |
| QStashGuarantees.SentAsPublished | internal/qstash.go:114-131 | while a POST is open, it carries the destination and body that were published, it is attempt number Retries + 1, and all earlier attempts have failed |
| QStashGuarantees.AttemptsAtRest | internal/qstash.go:137-185 | at rest: queued means 0 attempts, retrying means Retries attempts with 1 <= Retries <= MaxRetries, delivered means Retries + 1 with the last one successful, failed means MaxRetries + 1, or 0 for a URL that does not parse; and LastError is why the last attempt failed, empty before any and after a success |
| QStashGuarantees.ClaimedCanBeLoaded | internal/qstash.go:115-118 | a claimed id always has a record without TTL, so the silent return after a failed load is never taken |
| QStashGuarantees.QueuedHasRecord | internal/qstash.go:170-171 | a queued id has a live record without TTL, in state queued or retrying, and its score is the record's NotBefore |
| QStashGuarantees.OnlyFinishedExpire | internal/qstash.go:138-184 | only delivered and failed records ever carry a TTL, and no such id is queued or held |
| QStashGuarantees.DlqIntegrity | internal/qstash.go:179-186 | the DLQ never lists an id twice; each listed id used up its attempts without a success, its record is failed, with the error of the last attempt, or expired, and it is not queued |
| QStashGuarantees.PostedAsPublished | internal/qstash.go:114-284 | after a publish request, in whatever run follows, every POST of its id goes to the destination asked for, with the body it had |
| QStashGuarantees.ExpireLeavesAnHour | internal/qstash.go:24-184 | the EXPIRE that ends a delivery, or gives a message up, finds its record and leaves it 3600 seconds |
| QStashGuarantees.SendIsLogged | internal/qstash.go:131-131 | a POST that leaves is noted with the clock and the NotBefore its message carried |
| QStashGuarantees.AnswerIsLogged | internal/qstash.go:131-153 | the answer to a POST is noted with the reason why it failed |
| QStashGuarantees.DlqGrowsAtTheHead | internal/qstash.go:183-183 | over any run the DLQ only gains entries at its head; the older ones keep their order |
| QStashGuarantees.FuelFalls | internal/qstash.go:107-158 | the attempts left over all messages fall by one with every successful claim, grow by MaxRetries + 1 with every publication, and change in no other way |
| QStashGuarantees.DeliveriesAreBounded | internal/qstash.go:93-186 | any run starts at most MaxRetries + 1 deliveries per publication |
| QStashTiming.KeepTimed | internal/qstash.go:162-171 | every step, with any number of workers, keeps the due time of the next attempt a back-off from a clock reading after the last POST |
| QStashTiming.DueTimesComeFromBackoff | internal/qstash.go:163-168 | every POST after the first was due at the back-off for its number, counted from a moment after the previous POST was sent |
| QStashTiming.FirstDueAsPublished | internal/qstash.go:252-265 | the first POST was due at the time computed from the requested delay |
| QStashSolo.SoloKeep | internal/qstash.go:71-111 | with the single loop the program starts, every step keeps: the rest of a pass is queued, due, sorted and free of repetitions, and no POST so far was early |
| QStashSolo.NeverEarly | internal/qstash.go:100-111 | with a single loop no POST is sent before the NotBefore its message carried, nor with a NotBefore below 0 |
| QStashSolo.DelayIsHonoured | internal/qstash.go:100-265 | with a single loop no POST of a message is sent before its requested delay is over |
| QStashSolo.PassInScoreOrder | internal/qstash.go:100-111 | a pass of the single loop handles each due id at most once, in score order, and every claim it makes succeeds |
| QStashSolo.Spacing | internal/qstash.go:155-171 | with a single loop, attempt n + 1 is at least the sum of min(2^k, 60) seconds for k = 1..n after the first attempt, for n <= 33 |
| QStashSolo.DeadLetterTakes | internal/qstash.go:155-186 | a message dead-lettered after n <= 33 retries had n + 1 POSTs spread over at least 2^(n+1) - 2 seconds for n <= 5 and 62 + 60(n - 5) seconds for n >= 5 |
| QStashSolo.AtMost35Posts | internal/qstash.go:101-163 | until April 2050 no message is POSTed more than 35 times, whatever its retry limit |
| QStashSolo.NeverDeadLettered | internal/qstash.go:155-186 | until then a message with a retry limit of 35 or more never enters the DLQ by exhausting its retries |
| QStashLiveness.FinishDeliver | internal/qstash.go:114-186 | from any point inside a delivery the worker can finish on its own, and where the message then is follows from where it stood and how the POST was answered |
| QStashLiveness.StrandedForever | internal/qstash.go:101-101 | a message queued below score 0 and in nobody's snapshot stays queued, unclaimed and unsent in every possible future |
| QStashClaiming.ClaimableIffNotNegative | internal/qstash.go:101-110 | a queued message that no running pass lists can be claimed in some future, with any number of loops, if and only if its score is not negative; and then it can without a fault, by the loops that are running |
| QStashClaiming.SoloClaimableIff | internal/qstash.go:71-110 | with the single loop the program starts, wherever that loop is in its pass, a queued message can be claimed in some future if and only if its score is not negative |
| QStashSettling.SettlesIff | internal/qstash.go:93-186 | every published message can still be delivered or dead-lettered in some future unless it is lost, or is queued or on its way to the queue with a due time below 0 and no pass has listed it; this covers every stage of a delivery, and if it can, then without any fault, by the loops that are running |
| QStashSettling.SoloSettlesIff | internal/qstash.go:71-186 | the same condition for futures with one loop at a time |
| QStashLoss.RestForever | internal/qstash.go:93-186 | delivered, dead-lettered and lost are final: no run changes the history of such a message or its place in the DLQ |
| QStashLoss.CrashLosesIff | internal/qstash.go:105-186 | after a crash inside a delivery the message is never POSTed again; it can still end as delivered or in the DLQ if and only if only the final EXPIRE was missing; and it has had its one success if and only if the delivered record was being written |
| QStashLoss.WastedIff | internal/qstash.go:93-186 | over any run, a message ends lost, or given up without being in the DLQ, if and only if a crash hit its publish request, or the worker that held it while more than the last EXPIRE was missing |
| QStashLoss.QuietMeansSettled | internal/qstash.go:93-186 | once a message is not being published, queued or held any more, it has been delivered or is in the DLQ if and only if no such crash hit this very message, whatever else crashed or was stopped and started; delivered ones ended in a successful POST, the others had only failures |
| QStashLoss.PublishCrashLoses | internal/qstash.go:277-278 | a publish request that crashes before its ZADD loses the message for good, before any attempt |
| QStashLoss.LossIsReachable | internal/qstash.go:105-118 | there is a run after which a published message is lost without a single POST |
| QStashExpiry.LingersIff | internal/qstash.go:138-184 | over any run, the record of a finished message stays for ever if and only if its worker crashed between the final SET and the EXPIRE |
| QStashExpiry.FinishedExpires | internal/qstash.go:138-184 | so a delivered or dead-lettered message without such a crash has a TTL or is gone already |
| QStashPasses.PassClaimsWhatItLists | internal/qstash.go:100-111 | with a single loop that stops only between passes, a pass that has listed a message and gone past it has claimed it, once |
| QStashPasses.OneClaimPerDuePass | internal/qstash.go:100-111 | in such a run a message is claimed once by every pass that finds it due at its clock reading, and in no other way; at most MaxRetries + 1 passes do |
| QStashPasses.SettledByPasses | internal/qstash.go:93-186 | in such a run, between passes, a message has had one POST for each pass that found it due, and once MaxRetries + 1 passes did (one, if its URL does not parse) it has been delivered or is in the DLQ |
| QStashExhaustion.FailRound | internal/qstash.go:93-186 | a single worker with one waiting message can wait, claim it, fail the POST and is then waiting for the next attempt, or the message is in the DLQ |
| QStashExhaustion.DeadLetteredIffAtMost34 | internal/qstash.go:155-186 | before April 2050, a destination that keeps failing can bring a message into the DLQ if and only if its retry limit is at most 34 |
| QStashOverlap.TwoWorkersCanBeEarly | internal/qstash.go:105-110 | a run with two workers in which a POST goes out before the message's NotBefore: a claim does not look at the score again |
| QStashOverlap.NeverEarlyIffOneWorker | internal/qstash.go:71-111 | with at most n workers at a time no POST is ever early, if and only if n is at most one |
| QStashWorker.OthersLeaveMe | internal/qstash.go:93-186 | what other workers, publishers, time and expiry do never changes a worker's own position or a request's own position |
| QStashWorker.QStash.LoadMessage | internal/qstash.go:188-198 | loading a claimed message succeeds whatever happened since the claim, and yields the record as it was at the claim |
| QStashWorker.QStash.Fail | internal/qstash.go:179-186 | giving up is SET, then LPUSH, then EXPIRE, with anything by others in between; then the id is in the DLQ and its record is failed, with this reason, for one more hour |
| QStashWorker.QStash.Retry | internal/qstash.go:155-177 | a failed attempt is counted; then it gives up if the limit is exceeded, otherwise SET comes before ZADD with the back-off's due time |
| QStashWorker.QStash.Deliver | internal/qstash.go:114-153 | a delivery makes exactly the calls of one of its four outcomes in order, chosen by the record as it was when claimed (URL, retries, limit) and the answer to the POST; it leaves a delivered record for an hour, a failed one for an hour and in the DLQ, or one with the retry counted and the back-off as its score in the queue; and it is a run of the protocol |
| QStashWorker.QStash.ProcessDue | internal/qstash.go:93-112 | one tick reads the clock, takes one snapshot, and takes one turn per listed id, in snapshot order: the ZREM of that id and, if it was removed, its delivery |
| QStashWorker.QStash.HandlePublish | internal/qstash.go:231-284 | a publish request is accepted exactly for http and https destinations; then SET comes before ZADD of a message with the requested body, delay and retry limit (default 3), and it is stored and queued; otherwise nothing happens |
| QStashDlq.Reader.HandleDlq | internal/qstash.go:306-322 | the listing consists of one LRANGE and one GET per id, at successive states of a run in which everybody else goes on; it shows what each GET found, in list order |
| QStashDlq.DlqListing | internal/qstash.go:306-322 | whatever happens between those calls, the listing is the messages that were in the DLQ at the LRANGE, as they were then and in its order, without those expired by their own GET; each is failed, with every retry used unless the URL did not parse |
| QStashDlq.StoredIsShown | internal/qstash.go:316-320 | every listed message whose record is there, and not past its TTL, when it is asked for is shown |
| QStashDlq.ShownInOrder | internal/qstash.go:316-320 | nothing else is, and the order is that of the list |
| QStashDlq.DlqRunFades | internal/qstash.go:179-186 | over any run a dead-lettered id stays listed, and its record can only get its TTL and disappear |
| Backoff.ComputeBackoff | internal/qstash.go:162-166 | the delay of the code is the wrapped shift and multiplication capped at 60 s |
| Backoff.BackoffExact | internal/qstash.go:162-166 | the delay is min(2^r, 60) seconds if and only if r <= 33 or r is one of 37, 41, 42, 45, 47, 50, 51, 53 |
| Backoff.BackoffNonDecreasing | internal/qstash.go:162-166 | up to 33 retries the delays never get shorter |
| Backoff.BackoffVanishes | internal/qstash.go:162-166 | from the 55th retry on the delay is 0 |
| Backoff.NextAttemptExact | internal/qstash.go:167-168 | up to 33 retries the due time is exactly the intended number of milliseconds after the clock reading |
| Backoff.ThirtyFifthRetryIsNegative | internal/qstash.go:162-168 | the 35th retry's due time is below 0 if and only if the clock is before April 2050 |
| Backoff.TotalSecondsClosedForm | internal/qstash.go:162-166 | the intended delays of n retries add up to 2^(n+1) - 2 seconds for n <= 5 and to 62 + 60(n - 5) for n >= 5 |
| Backoff.DialDelayExact | main.go:395-398 | for every base and every dial number i the pause is min(d * 2^i ms, 30 s) if and only if the product fits int64, or is too large and wraps around to at least the cap |
| Backoff.SleptAtMostThirtySecondsEach | main.go:395-399 | the pauses after n failed dials add up to at most 30 s each, wrap-around included |
| Backoff.SleptExact | main.go:395-399 | while nothing is capped, the pauses after n failed dials add up to 2^n - 1 times the base |
| Backoff.DialWithRetry | main.go:382-402 | at most maxRetries dials, stopping at the first that succeeds, and at most 30 s * maxRetries of sleep |
| RateLimiter.WindowAdmitsExactly | internal/ratelimit.go:57-70 | within one window exactly min(calls, room left) pass |
| RateLimiter.RpsBound | internal/ratelimit.go:57-70 | in any run with a clock that never goes back, any k whole seconds admit at most (k + 1) * rps calls |
| RateLimiter.RpsBoundIsReached | internal/ratelimit.go:57-70 | for every k and every limit there is a run that admits that many |
| RateLimiter.CallsInSeconds | internal/ratelimit.go:45-73 | in any interleaving of concurrent calls, at most (k + 1) * rps of them pass within k whole seconds, and the calls let through are exactly those the window admits |
| RateLimiter.SlidingPromiseExact | internal/ratelimit.go:57-70 | from a given state, no future admits more than rps calls in the next second if and only if the window is used up, over, or does not start before that second |
| RateLimiter.AccountedRun | internal/ratelimit.go:45-73 | any interleaving of the two stages keeps the counters equal to what the calls so far, in order, make them |
| RateLimiter.QuotaExact | internal/ratelimit.go:50-70 | after N requests exactly min(N, quota) passed the quota stage, at most quota were allowed, and only those that passed ever touch the window |
| RateLimiter.NextQuotaStage | internal/ratelimit.go:50-55 | once quota requests were made every later quota stage refuses, without touching the window, until the int64 counter wraps around |
| RateLimiter.AtomicInt64.Add | internal/ratelimit.go:24-29 | adds with int64 wrap-around and returns the new value |
| RateLimiter.Limiter.Allow | internal/ratelimit.go:45-73 | a call is the quota stage followed, if passed, by the window stage of the interleaved system; it passes if and only if neither counter is above its limit, and a refusal says which one is |
| RateLimiter.Limiter.AllowIfAny | internal/ratelimit.go:45-73 | without a limiter every call is allowed; with one, the call is those two stages, with the same answer |
| Base64.DecodeEncode | internal/response.go:29-34 | decoding what was encoded gives back every byte string (section 4 of RFC 4648) |
| Base64.LongExamples | internal/response.go:29-34 | examples of section 10 of RFC 4648 |
| ReplyTree.ConvertRedisResult | internal/response.go:29-49 | rewriting a reply in place, into the very same slices, keeps all of its content: byte strings and errors become text, or base64 that decodes to them, everything else stays; if no slice is reached twice |
| ReplyTree.PlainShows | internal/response.go:29-49 | the converted reply has every string, error message, number, nil and array of the reply, in its place |
| ReplyTree.ConvertValue | internal/response.go:90-113 | the second rewriting, which keeps "OK" and encodes every other string, rewrites the elements of each slice once for every path along which the value reaches it, for any value that does not contain itself |
| ReplyTree.TreeEncoded | internal/response.go:90-113 | so, if no slice is reached twice, the very same slices end as the pure tree map of what they were |
| ReplyTree.ReadReply | internal/commands.go:48-52 | a reply whose arrays are allocated as they are read reaches no slice twice |
| ReplyTree.EncodeResponseData | internal/response.go:75-88 | results are encoded wherever they are nested in a list of answers, so that every string is still there, as it is or in base64; errors are passed through, and every answer keeps its place |
| ReplyTree.Respond | internal/commands.go:48-52 | from the wire to the marshalled value: an error reply becomes an error, anything else a value with all the content of the reply |
| ReplyTree.MarshalledAnswers | internal/commands.go:48-52 | whatever Redis replied, the answer after both steps is its error message, or has its content, with every string as it is, or as base64 unless it is "OK" |
| ReplyTree.TextRecovered | internal/response.go:94-102 | every string, "OK" included, is recovered from its encoded form: no base64 text can be mistaken for "OK" |
| ReplyTree.ConvertedIsPlain | internal/response.go:29-49 | after the first rewriting no byte string or error is left anywhere in the tree, and rewriting again changes nothing |
| ReplyTree.ClientUndoes | internal/response.go:90-113 | a client that keeps "OK" and decodes everything else undoes the base64 encoding of any tree of strings, integers, nils and arrays |
| ReplyTree.ClientRecovers | internal/response.go:29-113 | whatever Redis replied, the client reads back its plain form from the base64 answer, with all of its content |
| ReplyTree.EncodedTwice | internal/response.go:105-109 | a reply that was encoded twice is recovered by the client if and only if every string in it is "OK" or empty |
| ReplyTree.RecoveredIff | internal/response.go:105-109 | whichever slices a plain reply holds in several places, the client recovers it from the rewritten slices if and only if every string in a slice reached more than once is "OK" or empty |
| Decimal.ParsePrint | internal/response.go:153-159 | every integer is read back from its decimal form |
| Resp2.ReadFormat | internal/response.go:145-163 | any printed string, CR LF included, integer or nil is read back, with exactly the rest of the stream left |
| Resp2.ReadFormatAll | internal/response.go:145-163 | a concatenation of printed replies is read back as the same list |
| Resp2.FormatAllInjective | internal/response.go:145-163 | no stream stands for two different lists of replies |
| Resp2.ReadErrorIff | internal/response.go:137-138 | an error answer is read back if and only if its message contains no CR LF |
| Resp2.ReadBytesIff | internal/response.go:147-148 | a byte string, printed as a status line, is read back if and only if it contains no CR LF |
| Resp2.AnswerArrives | internal/response.go:128-143 | what Redis replied to a command, other than errors and arrays, reaches a RESP2 client with its content |
| Resp2.ErrorArrives | internal/response.go:137-138 | so does the message of an error, if it is one line |
| Resp2.Examples | internal/response.go:137-163 | the bytes on the wire for "OK", other strings, nil, a negative number and an error |
| Folds.FoldSkips | internal/rest.go:191-199 | in a loop over inputs, those that change nothing can be left out: the end state and the other outputs stay the same |
| Folds.FoldSimulates | internal/commands.go:91-116 | a loop that simulates another step by step ends in the matching state with matching outputs |
| Commands.Server.ExecuteCommand | internal/commands.go:13-53 | a command that the token may not run, or that is blocked, is answered with that error and changes nothing; then come ACL RESTTOKEN, counting and recording, connection and login, and Redis; the state and the answer are those of that order |
| Commands.Server.AuthRedisConn | internal/auth.go:90-99 | no AUTH without credentials, AUTH with one argument without a password, otherwise with two |
| Commands.Server.AclRestToken | internal/auth.go:102-128 | ACL RESTTOKEN issues a token for a user and password if there are three arguments, Redis accepts them and a random token can be drawn; otherwise no token is issued |
| Commands.Server.HandlePath | internal/rest.go:151-163 | the first segment of a path names the command, the others are its arguments; no segment is an error |
| Commands.Server.HandleSingleExecute | internal/rest.go:166-178 | bodies that do not parse and empty commands are refused without any effect; otherwise the first element names the command |
| Commands.Server.HandlePipelineExecute | internal/rest.go:180-201 | a body that does not parse and an empty pipeline are refused; otherwise the commands run one after the other, each with its own answer |
| Commands.Server.CheckTransaction | internal/commands.go:60-70 | passes a transaction if and only if no command is empty, none is forbidden to the token and none is blocked; otherwise it finds the first that is |
| Commands.Server.SendAll | internal/commands.go:88-97 | every command is queued in order, and the first error while queueing is what the transaction will report |
| Commands.Server.ExecuteMultiExec | internal/commands.go:55-118 | the transaction's effect and answer: refused, stopped before EXEC, or all commands run with one answer each |
| Commands.Server.HandleMultiExec | internal/rest.go:203-211 | a body that does not parse is refused, anything else is executed as a transaction |
| Gates.GateStops | internal/commands.go:13-21 | what the token may not run, or else is blocked, is answered with the error of that gate, and nothing is changed, counted or recorded |
| Gates.GateStopsBody | internal/rest.go:166-178 | so a JSON body naming such a command has no effect and is answered with that error |
| Gates.GateStopsPath | internal/rest.go:151-163 | and a path with such a first segment likewise |
| Gates.GateStopsInPipeline | internal/rest.go:191-199 | in a pipeline each such command gets the error of its gate; if that is all there is, nothing changes |
| Gates.GateStopsTransaction | internal/commands.go:60-70 | the first empty command, or the first that a gate stops, is what a transaction is answered with, and nothing changes |
| Gates.RefusedIff | internal/commands.go:60-70 | a request is refused if and only if it is empty, the token may not run its command, or that is blocked |
| Gates.LoginIff | internal/auth.go:90-99 | the login succeeds without credentials, or if Redis accepts the user, or the user and then the password |
| Gates.TokenIssued | internal/auth.go:102-128 | the token that ACL RESTTOKEN answers stands for the user and the password it was given, in this order |
| Gates.TokenRefused | internal/auth.go:102-128 | no token is issued if and only if there are not three arguments, Redis rejects the login, or no random token can be drawn; no data changes |
| Gates.CommandRuns | internal/commands.go:24-52 | a command that passes runs on Redis with its arguments, as its caller; it is counted in upper case, recorded as written, and answered with the content of the reply |
| Gates.CommandFails | internal/commands.go:24-46 | without Redis, or with a login that it rejects, it is counted, recorded and answered with that error, and no data changes |
| Gates.UnreadableRequests | internal/rest.go:166-188 | the error for each kind of body that does not parse or holds no command |
| Gates.TransactionRuns | internal/commands.go:73-117 | a transaction that nothing stops runs all of its commands in order, is counted once as MULTI-EXEC and not recorded, and answers each command with the content of its reply or its error |
| Gates.QueueErrorStops | internal/commands.go:88-102 | otherwise the first error while queueing is the answer, and no data changes |
| Transactions.PipelineRunsAll | internal/rest.go:191-199 | a pipeline of unrefused commands leaves Redis as running them in order does, and answers each reply |
| Transactions.TransactionRefinesPipeline | internal/commands.go:55-118 | a transaction of commands that pass the gates and can be queued leaves the same data and gives the same answers, position by position, as a pipeline of them |
| Transactions.RefusedTransactionSendsNothing | internal/commands.go:60-70 | if any command is refused, the transaction answers with the first refusal and nothing is sent, counted or recorded |
| Transactions.PipelineSkipsRefused | internal/rest.go:191-199 | a pipeline answers every request; refused ones get their error and have no effect, and the others end in the state and get the answers they would without them |
| Transactions.TransactionFailsIff | internal/commands.go:55-118 | a transaction answers with a single error if and only if it is empty, a command is refused or cannot be queued, or Redis cannot be reached or logged in to, and then the data is unchanged; otherwise there is one answer per command |
| Transactions.ErrorsAbortNothing | internal/commands.go:99-117 | in every transaction that is not stopped before EXEC all commands run, and exactly those to which Redis replied with an error are answered with one |
| Transactions.IncrementsCount | internal/commands.go:99-117 | on a counter, all increments of a transaction count whichever of its other commands fail |
| Json.ParsePrint | internal/recorder.go:30-39 | any request of strings, with any characters in them, and of other values, nested ones included, in the form they are printed is read back from its JSON, with U+FFFD for bytes that are not UTF-8; so it is read back as it was if and only if its strings are valid UTF-8 |
| Json.PrintedIsValue | internal/recorder.go:34-39 | a printed array is itself one value for the decoder, whatever brackets, quotes and commas are in its strings, so arrays can be elements of arrays |
| Json.ParsePrintAll | cmd/upstash-local/main.go:285-285 | the same for a list of requests, as a pipeline sends them |
| Json.ParsedIsCanonical | cmd/upstash-local/main.go:113-119 | however a request was written, what is decoded from it consists of strings and values in the form they are printed |
| Json.PrintedIsOneLine | internal/recorder.go:34-39 | a recorded command never contains a line break (section 7 of RFC 8259) nor starts or ends with white space, if its values other than strings print on one line |
| Json.PrintedCommand | internal/recorder.go:30-39 | a recorded command is an array of its name and its arguments, each in quotes, with letters, digits and most punctuation as they are |
| Json.LongEscapes | internal/recorder.go:34-39 | how Go's encoder writes control characters and angle brackets |
| Lines.TrimmingFileIsHarmless | cmd/upstash-local/main.go:106-113 | trimming the file before splitting it loses no non-blank line and changes none |
| Lines.EntriesOfFile | cmd/upstash-local/main.go:106-113 | splitting and trimming a file of recorded lines gives back exactly those lines |
| Lines.SplitIsExact | cmd/upstash-local/main.go:106-106 | splitting at line breaks loses nothing: the lines with line breaks between them are the file |
| Lines.TrimIsExact | cmd/upstash-local/main.go:106-110 | trimming takes the white space at both ends and nothing else |
| Replay.LoggedSession | internal/commands.go:27-52 | a session of paths, single commands, pipelines and transactions, well-formed or not, logs exactly the commands outside of transactions that pass the gates, in that order |
| Replay.RanSession | internal/commands.go:27-52 | without its transactions, a session ends in the data that running exactly these commands leaves |
| Replay.ReplayFile | cmd/upstash-local/main.go:106-126 | every non-blank line is issued in order and counted once: ok + failed is the number of non-blank lines of any file, and ok the number that succeeded |
| Replay.UnreadableLineFails | cmd/upstash-local/main.go:113-117 | a line that does not parse changes nothing and counts as failed |
| Replay.ReadableLineCounts | cmd/upstash-local/main.go:118-126 | any other line is executed as the command it says, and counts as failed if and only if it is answered with an error |
| Replay.ReplayLogged | cmd/upstash-local/main.go:113-124 | replaying one logged command runs it with U+FFFD for the bytes of its strings that are not UTF-8, and counts as ok exactly if Redis did not answer with an error |
| Replay.RecordThenReplay | cmd/upstash-local/main.go:106-124 | without per-user credentials and on healthy connections, replaying any recorded session with the full token runs the commands that it sent outside of transactions, with U+FFFD for stray bytes, in order, and a line succeeds exactly if its command then does |
| Replay.SessionValidIff | internal/commands.go:128-153 | the commands sent are valid UTF-8 if and only if all segments of the paths that pass the gates are; what is decoded from bodies always is |
| Replay.ReplayOfValidSession | cmd/upstash-local/main.go:106-124 | then the replay from the same data ends in the data of the session without its transactions |
| Replay.ReplayAgreesIff | cmd/upstash-local/main.go:106-124 | with a Redis that keeps all it is told, it does so if and only if these segments are valid |
| Replay.StrayByteIsLost | internal/commands.go:128-153 | POST /SET/k with the byte 0xFF as its body is such a path with a segment that is not valid |
| Replay.SimpleIsDecoder | internal/recorder.go:34-39 | what the replay asks of the JSON library is met by a decoder of strings and simple values, whatever those are and however they are printed, provided what is printed for a value is read as that value |
| Replay.StrictDecoder | cmd/upstash-local/main.go:113-119 | among such decoders is one that refuses [abc] and reads [1.0] as [1] |
| Dashboard.ScanKeys | internal/dashboard.go:58-81 | the scan asks for batches until the cursor is back at 0, the limit is reached or a call fails; it returns all keys in order, cut off at the limit, or that error |
| Dashboard.Redis.ExportData | internal/dashboard.go:106-127 | if every SCAN succeeds, one item per scanned key, in order, with its type, TTL and readable value; otherwise the error of the first that fails |
| Dashboard.Redis.WriteHash | internal/dashboard.go:155-165 | the arguments of HSET give the same hash in whatever order the map is walked; anything Redis refuses leaves the data unchanged |
| Dashboard.Redis.ImportData | internal/dashboard.go:130-148 | items are written in order up to the first error, which names its key; nameless items are skipped |
| Dashboard.ImportStops | internal/dashboard.go:130-148 | the first item that fails ends the import with its key and its error, and the data stays as the items before it left it |
| Dashboard.ImportGoesOn | internal/dashboard.go:130-148 | items that do not fail are imported one on top of the other |
| Dashboard.NamelessIsSkipped | internal/dashboard.go:135-139 | an item without a key, or whose key is empty or no string, changes nothing |
| Dashboard.StringIsSet | internal/dashboard.go:140-153 | a string is set with its value, and with its TTL if that is at least a second |
| Dashboard.HashIsMerged | internal/dashboard.go:155-165 | a hash is merged into what is there; a value that is no object, an empty one, and a key of another type are its three errors |
| Dashboard.FieldsAreSet | internal/dashboard.go:155-165 | its fields get the imported values, the other fields of the old hash keep theirs |
| Dashboard.OtherIsText | internal/dashboard.go:166-172 | a value of any other type is set as text, unless that is empty or <nil>; then only the TTL of the key changes |
| Dashboard.ExportThenImport | internal/dashboard.go:105-173 | importing an exported database into an empty one restores every string and hash with its positive TTL and leaves other keys unexpiring, also when SCAN repeats keys or reports expired ones; lists, sets and sorted sets come back as the text of at most 50 entries, other types not at all |
| Dashboard.NothingLostIff | internal/dashboard.go:134-172 | that is the whole database if and only if there are only strings and hashes, no key is empty and no TTL reads 0 |
| Dashboard.OverwritesIff | internal/dashboard.go:150-166 | a string or hash imported by ImportData over existing data gets the exported value if and only if it is a string, is new, or replaces a hash without other fields |
| CliImport.ImportFile | cmd/upstash-local/main.go:276-284 | the CLI sends one SET per item with a key, in the order of the dump |
| CliImport.Overwrites | cmd/upstash-local/main.go:266-291 | the SETs of an import overwrite: whatever was there, every key of the dump ends as an unexpiring string with its last value, and no other key changes |
| CliImport.RestoresIff | cmd/upstash-local/main.go:266-291 | run on an empty database, the SETs for a dump with types and TTLs restore it if and only if it holds only unexpiring strings |
| CliServed.ServedImport | internal/rest.go:180-201 | sent to the server as one pipeline, an import overwrites in this way if neither the gate of its token nor the one for dangerous commands stops SET; else it changes nothing |
| CliServed.ServedRestoresIff | internal/rest.go:180-201 | so a dump of some keys is restored into an empty database if and only if the token may SET and there are only unexpiring strings |
| Metrics.Tracker.FileRequest | internal/metrics.go:37-45 | the locked half of Record: adds one to the counter of this command, or of "unknown", and to the count of the day, which starts from 1 when the day has changed |
| Metrics.Tracker.TakeSnapshot | internal/metrics.go:48-74 | the snapshot is a copy of all counters, with the uptime in whole seconds; the remaining quota is 10000 minus today's count, never below 0 |
| Metrics.TotalIsConserved | internal/metrics.go:30-46 | in every interleaving the total minus the sum over the commands is the number of calls between their two updates |
| Metrics.CommandsAreExact | internal/metrics.go:32-38 | in every interleaving, each command's counter is the number of times this very command was recorded, and that of "unknown" also has the unnamed ones |
| Metrics.InterleavedAsSequential | internal/metrics.go:30-46 | in every interleaving, the counters kept under the lock are those of calls made one after the other in the order of filing, and the total exceeds theirs by the calls between their two updates |
| Metrics.TodayCountIff | internal/metrics.go:36-45 | in every interleaving, the daily count is the number of records on the last recorded day if and only if no other day's record was filed in between |
| Metrics.TodayCountExact | internal/metrics.go:36-45 | which is so whenever the days filed never go back; then the total is the number of records and of calls between their two updates |
| Metrics.StragglerResetsTheDay | internal/metrics.go:36-45 | three calls, with a clock that never goes back, after which the count for the day is 1 and two requests were filed on it |

## Left out

- QStash list endpoint, message ids, parsing of `Upstash-Delay` and `Upstash-Retries` and of the URL: their results are parameters of `HandlePublish`.
- The text that follows "invalid destination" in LastError: it comes from Go's URL parser.
- QStashWorker.QStash.Deliver: what one method call may do is proved against the steps of the others, not against a second object sharing the same heap; the protocol model covers the interleaving itself.
- RateLimiter.Limiter.Allow: the two stages are one sequential call here; the interleaved form is the transition system, and the window counter is unbounded.
- Resp2.ReadFormat: arrays, which formatResp2 prints with Go's `%v`, are not read back by any client and are not modelled.
- ReplyTree.ConvertRedisResult: what it does with base64 is stated, although every caller passes false; the precondition that no slice is reached twice is what the reply reader provides (`ReadReply`).
- Json.ParsePrint: what is inside of numbers, arrays and objects is read by an arbitrary function that reads its own output; the decoder here finds where each of them ends.
- CliServed.ServedImport: the check of the token itself, rate limits and injected errors are outside of it; a token stands for what it may do.
- The tables behind the two gates, which are arbitrary functions here, and the lookup of tokens that ACL RESTTOKEN has issued.
- Failures of a connection in the middle of a transaction, and I/O errors of the log file.
- Dashboard.Redis.ImportData: how Go prints numbers, booleans and maps is an arbitrary function.
- The CLI's own export command, which reads every key with GET, and how keys with special characters travel in its paths.
- HTTP routing, CORS, server-sent events, chaos injection, token comparison, environment files, the dashboard page.
