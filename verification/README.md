# JovePoxy gateway: verified models of its stateful core

JovePoxy is a gateway between chat clients and several upstream model providers.
This project models the parts of its data plane that carry state, and proves what
they promise over every input and every run.

* **Responses adapter.** `ResponsesProtocol` holds the steps of the adapter on values:
  a stream is a growing list of output entries and a log of events. `ResponsesLifecycle`
  proves that every run keeps the client protocol. `ResponsesStream` is the adapter as
  the source has it, one object whose methods update its fields and write one event at a
  time; every method is tied to a step. `ResponsesWriteStream` adds the read loop.
  `ResponsesResponse` and `ResponsesAgreement` compare the stream with the non-stream
  conversion. `ChatStory` tells, for both adapters, what a list of lines says, and
  `ResponsesContent` proves that the stream says it. `ResponsesRequest`, `ResponsesConvert`,
  `ResponsesConversation` and `ResponsesMessages` treat the opposite direction, input items to
  chat messages, and `ResponsesRoundTrip` joins the two.
* **Anthropic adapter.** `AnthropicProtocol` has its steps and a client that checks every
  event; `AnthropicLifecycle` proves that the client accepts every run, and exactly when a
  strict client does; `AnthropicStream` is the adapter with its fields,
  `AnthropicWriteStream` adds the read loop, and `AnthropicContent` proves that the stream says
  what its lines say. `UpstreamLines` has what both adapters read.
* **Key pool.** `ZenScoring` (scores, decay, cooldown), `ZenGuard` (the 5xx window),
  `ZenPool` and `ZenAcquire` (each operation on a pool value), `ZenService` (the service
  object), `ZenSelection` (what one selection promises), `ZenRuns` (whole runs: the
  write-back cache against a write-through engine, probation and backoff), `ZenOutcomes`
  (which status codes count and what they cost), `ZenWeights` (who may be chosen, and how
  often), `ZenHistory` (what the service's memory says of a run), `ZenOverlap` (what selections
  that overlap other steps keep), `ZenRaces` (what they can break, and when), `ZenFailover` (one
  request over several keys) and `ZenAttempts` (how it goes on and whom it blames).
* **Egress.** `WeightedPick` and `Skipping` (the pick both pools use), `ProxyPool`, and
  `PaidProxy`, where paid requests try two proxies and then go direct.
* **Catalog, limiters, relay.** `ModelCatalog`, `LoginLimiter`, `KeyWindows`, `CopyStream`,
  with `SseLines` and `SseWriter` for lines and client connections.

Conventions of the models:

* A client connection takes some number of frames and then fails for good, so "the client
  goes away" is covered at every point of a stream. A run that is cut short has delivered a
  proper prefix of the full run's log.
* JSON is already decoded. How a line decodes, and which usage it carries, is an unknown
  function. Generated identifiers come from a supply that never repeats.
* Upstream bodies are bytes that a read may cut anywhere, followed by a proper end or an
  interruption. A text is a Go string, the sequence of its bytes, so its length is in bytes.
  White space is space, tab, line feed and carriage return for text, and the ASCII blanks for
  bytes.
* The stores are maps whose calls may fail. Each operation takes the outcome of its store
  calls, the clock readings and the result of each dial as parameters, and the theorems
  hold for all of them. Decryption, URL parsing and the affinity hash are unknown functions
  (the hash is not negative). Times are integers in nanoseconds, scores are reals, and the
  selection counters wrap at 64 bits.
* Operations under one lock are one step, and so is recording an outcome. `AcquireFor` is one
  step as a method; `ZenOverlap` and `ZenRaces` take it apart into its reads, with anything in between.

Findings, each stated by a lemma with a concrete case or an exact condition:

* A call id that arrives after the first delta of its call is lost in the stream: the
  branch that would fill it in (`internal/responses/stream.go:513`) can never run, because
  an id was generated when the call was opened. The non-stream form would keep it
  (`ResponsesAgreement.LateIdIsLost`; the exact condition is in `StreamAgreesWithMessage`).
* A success can lower a health score: exactly when the score a reader sees, decayed or
  floored as it may be, is above what the row's counts earn with one more success
  (`ZenPool.SuccessLowersIff`). That happens to a new key (`ZenScoring.FirstSuccessLowers`),
  at the eighth sample (`ZenScoring.ComposedLowersIff`), after an idle time
  (`ZenPool.IdleSuccessLowers`) and after a floored probe (`ZenPool.FlooredSuccessLowers`).
* Decay is path independent exactly when the next step stays on the scale
  (`ZenScoring.DecayPathIndependent`).
* The comment at `internal/zenpool/service.go:417` promises more than the code does: on a probe turn a
  bad ciphertext fails the call although another key would open
  (`ZenSelection.ProbeTurnCanFail`; the exact condition is `FailsDespiteActiveIff`).
* When calls overlap, a failed key stays on probation exactly if the upsert of its failure
  succeeded or its stored row showed a failure already (`ZenRaces.ProbationIff`): otherwise a
  call can read the row before a later failure is written and the unwritten health after it,
  and see neither (`TornReadSkipsProbation`). The rest of a stored cooldown holds in any overlap
  (`ZenOverlap.OverlappedBackoff`); the minute on the bench holds by the clock of the call or of
  another one that forgot the bench before (`OverlappedBench`, `ZenRaces.BenchEndsForAll`).
* Probes of one key can overlap. A failed, rested key is a candidate again exactly if no probing
  dial of it has begun since a dial of it last finished (`ZenHistory.ProbeCandidateIff`). So a
  selection alone does not hold the key (`ZenRaces.ProbesCanOverlap`), and any dial that finishes,
  an older one that is no probe included, frees it while the probe is out
  (`AnyFinisherFreesProbe`, `OldDialFreesProbe`).
* The share check can exclude every key, so that its fallback is used (`ZenRaces.CapCanExcludeAll`),
  but only when two checks count some key's requests differently (`BothOverCapDiffer`); while they
  agree the fallback is unreachable and the share is kept (`ShareCapHoldsSeen`).
* The bench after a 401 can be cut short: a later 429 or 5xx of the key whose cooldown cannot be
  stored sets it to one minute. Nothing else does (`ZenOutcomes.UnauthorizedRests`,
  `FailureCosts`).
* The Anthropic adapter sends deltas for tool blocks it has stopped, exactly when a tool
  index is resumed after text (`AnthropicLifecycle.RunLifecycle`).
* Recorded login failures can lie closer together than the window when measured by their
  stamps, because a stamp is read before the password check. They span the window whenever a
  source's stamps do not go back, and any two logins that cross can break it
  (`LoginLimiter.OrderedRunSpans`, `StampsCanLieCloser`, `OrderDecides`); measured from the first
  login's start to the last record they always span it (`SixFailuresSpanWindow`).

## Model

| member | source | states |
|---|---|---|
| SseLines.SplitThenJoin | internal/sse/write.go:46-55 | the lines of a text and its unterminated rest make up the text again |
| SseLines.JoinThenSplit | internal/sse/write.go:46-55 | lines written out and read back are the same lines |
| SseLines.LinesAreTrimmed | internal/sse/write.go:46-55 | the lines a reader gets are the pieces between line feeds, one for one, without trailing CRs |
| SseLines.LinesAppend | internal/sse/write.go:46-55 | reading a text in two pieces, with the rest carried over, gives the lines of the whole |
| SseLines.LineBuffer.ReadLine | internal/sse/write.go:46-55 | takes the first complete line, CR dropped, and leaves exactly the later lines and the rest; without a line feed nothing changes |
| SseLines.ReadFirstEvent | internal/sse/first_event.go:13-30 | reads exactly the first event and leaves the rest of the body, however lines arrive |
| SseLines.FirstEventEndsAtBlankLine | internal/sse/first_event.go:13-30 | the first event is the text through its first blank line, or all of it |
| SseLines.BoundaryIsBlank | internal/sse/first_event.go:160-163 | a line is an event boundary exactly if only CRs stand before its line feed |
| ResponsesWriteStream.TranscriptLifecycle | internal/responses/stream.go:310-646 | for every body and ending: created and in_progress first, one terminal event last; each output index added once, its deltas in between, done once with their concatenation; entry k of the terminal output is the item of index k |
| ResponsesContent.ContentKept | internal/responses/stream.go:264-432 | for every body and ending, whatever the order of its lines: the message items of the terminal output join to the content of all chunks before the first error, the reasoning items to their reasoning, that of chunks after a call left out |
| ResponsesContent.CallsKept | internal/responses/stream.go:471-532 | the deltas of each tool index, cut into consecutive groups, make up its calls in order: joined arguments, the first name given, the id of the first delta |
| ResponsesContent.TranscriptSays | internal/responses/stream.go:264-667 | item by item the terminal output says what the lines tell, and the event is the one they call for: failed with the first error or a broken body, incomplete or completed by the last finish reason |
| ResponsesContent.TranscriptIds | internal/responses/stream.go:310-532 | all identifiers in the terminal output are different, minted call ids included |
| ResponsesContent.UsageKept | internal/responses/stream.go:169-199 | without an error each counter of the terminal event is the last positive one among the snapshots of the body |
| ChatStory.ToldKeeps | internal/responses/stream.go:292-305 | in the parts that any list of lines tells, speeches join to the content, thoughts to the reasoning, and the calls of an index to its arguments |
| ChatStory.CallsAreGroups | internal/responses/stream.go:471-532 | the calls of an index are consecutive groups of its deltas, at most one where an index names a call for good |
| ResponsesLifecycle.CoherentLifecycle | internal/responses/stream.go:206-219 | a finished stream that kept the invariant is a whole client-visible life |
| ResponsesLifecycle.ConsumeCoherent | internal/responses/stream.go:264-308 | every line, whatever it carries, keeps the invariant: each index's events are exactly the trace of its entry so far |
| ResponsesLifecycle.SettleCoherent | internal/responses/stream.go:560-579 | closing the open items, interleaved tools included, keeps it |
| ResponsesLifecycle.AddCallCoherent | internal/responses/stream.go:471-532 | a tool delta, opening a call or not, keeps it |
| ResponsesLifecycle.FailCoherent | internal/responses/stream.go:593-611 | failing keeps it and closes everything first |
| ResponsesLifecycle.FinishCoherent | internal/responses/stream.go:613-646 | finishing keeps it and closes everything first |
| ResponsesStream.StreamState.EmitCreated | internal/responses/stream.go:221-232 | created and in_progress with numbers 1 and 2, or a proper prefix if the client is gone |
| ResponsesStream.StreamState.EmitReasoning | internal/responses/stream.go:310-354 | the client has exactly the numbered log of the reasoning step, with the bookkeeping agreeing, or a proper prefix |
| ResponsesStream.StreamState.CloseReasoning | internal/responses/stream.go:356-391 | the same for closing an open reasoning item |
| ResponsesStream.StreamState.EmitText | internal/responses/stream.go:393-432 | the same for text, which closes reasoning and tools first |
| ResponsesStream.StreamState.CloseMessage | internal/responses/stream.go:434-469 | the same for closing an open message |
| ResponsesStream.StreamState.EmitToolCalls | internal/responses/stream.go:471-532 | the same for a list of tool deltas |
| ResponsesStream.StreamState.CloseTool | internal/responses/stream.go:534-558 | one tool's done events, its item kept at the end of the outputs, the others untouched |
| ResponsesStream.StreamState.CloseAllTools | internal/responses/stream.go:560-579 | closing the tools one by one is closing all, in output-index order |
| ResponsesStream.StreamState.Fail | internal/responses/stream.go:593-611 | the same for failing: a failed event once, after the closes |
| ResponsesStream.StreamState.Finish | internal/responses/stream.go:613-646 | the same for finishing: completed or incomplete once, after the closes |
| ResponsesStream.StreamState.ConsumeLine | internal/responses/stream.go:264-308 | the same for a whole line; an upstream error ends the stream |
| ResponsesStream.StreamState.ApplyUsage | internal/responses/stream.go:169-185 | positive counters of a snapshot replace the usage, nothing else changes |
| ResponsesWriteStream.WriteStream | internal/responses/stream.go:20-131 | a stream starts unless the body is empty or refused; the client receives the numbered transcript of the bytes or a proper prefix, and the usage snapshot is that of the bytes |
| ResponsesWriteStream.Drain | internal/responses/stream.go:86-130 | every complete buffered line is consumed in order and the partial line stays |
| ResponsesWriteStream.ChunkingIndependence | internal/responses/stream.go:86-130 | two readings of the same bytes deliver the same events and snapshot, however reads cut them |
| ResponsesWriteStream.ProjectPrefix | internal/responses/stream.go:310-646 | a client that went away saw, of each item, a prefix of its trace |
| ResponsesResponse.FromOpenAI | internal/responses/response.go:75-146 | fails only on a body that does not parse; otherwise reasoning, message and calls in order, the text, the status of the finish reason, the token counts, and identifiers that are all different |
| ResponsesResponse.PayloadOf | internal/responses/response.go:148-166 | input, output, their sum, and the first place that counts cached tokens; all zero without usage |
| ResponsesAgreement.StreamAgreesWithMessage | internal/responses/response.go:75-146 | for reasoning, then content, then tool deltas: the stream ends with the status and output of the accumulated message; call ids agree exactly if no call got its id late |
| ResponsesAgreement.OutputsAgree | internal/responses/stream.go:206-219 | the output items agree position by position |
| ResponsesAgreement.LateIdIsLost | internal/responses/stream.go:512-516 | a call opened without an id keeps its generated one; the later id is lost |
| ResponsesResponse.LineFollows | internal/responses/stream.go:264-308 | after each ordered line the open entries are those of the accumulated message so far |
| ResponsesRequest.FlattenContent | internal/responses/request.go:399-431 | refuses parts exactly if one has a kind other than input_text, output_text, text and summary_text; else the texts joined |
| ResponsesConvert.ConvertInput | internal/responses/request.go:162-346 | the buffered one-pass conversion equals reading, attaching reasoning and placing in separate passes, with the same errors |
| ResponsesConvert.Converter.FlushPendingToolCalls | internal/responses/request.go:202-223 | the buffered calls become one batch carrying the pending reasoning, and their ids are awaited |
| ResponsesConvert.Converter.ConvertMessage | internal/responses/request.go:268-287 | a message is placed, or deferred while answers are awaited; an assistant takes the pending reasoning |
| ResponsesConvert.Converter.ConvertReasoning | internal/responses/request.go:288-290 | trimmed reasoning joins the pending text; blank reasoning is dropped |
| ResponsesConvert.Converter.ConvertCall | internal/responses/request.go:292-316 | a call joins the buffered run |
| ResponsesConvert.Converter.ConvertAnswer | internal/responses/request.go:317-332 | a tool message at once; when nothing is awaited any more, the deferred messages follow |
| ResponsesConvert.Converter.Close | internal/responses/request.go:338-346 | the end of input flushes calls, leftover reasoning and deferred messages |
| ResponsesConversation.ToolAdjacency | internal/responses/request.go:188-345 | every system, user or plain assistant message stands where no call is unanswered, or in a final tail of such messages |
| ResponsesConversation.AllAnsweredAdjacency | internal/responses/request.go:188-345 | if every call is answered, no such message stands between a call and its answer at all |
| ResponsesConversation.ScheduleKeepsGroups | internal/responses/request.go:224-238 | placing keeps plain messages in their order, and call batches with answers in theirs |
| ResponsesConversation.SchedulePermutes | internal/responses/request.go:224-238 | placing loses and duplicates no message |
| ResponsesConversation.TokensKeep | internal/responses/request.go:194-250 | everything said stays in order; each reasoning text that is not blank is carried exactly once, by the next assistant message or batch, or by a final message |
| ResponsesConversation.UnitsKeep | internal/responses/request.go:251-337 | each item is read once, in order, and neighbouring calls always share a batch |
| ResponsesConversation.UnitsFailOnBadItem | internal/responses/request.go:251-337 | the conversion fails exactly if some item alone cannot be read |
| ResponsesMessages.ConversationKept | internal/responses/request.go:162-346 | for every list of items: an error exactly if some item cannot be read; else, after the instructions, the messages the items stand for, with their roles, texts, reasoning and calls; plain messages keep their order, calls with answers theirs, answers directly follow their calls, and no message waits while no answer is awaited |
| ResponsesMessages.PlainInputs | internal/responses/request.go:162-186 | a string is one message of the user, no input only the instructions, anything else an error |
| ResponsesMessages.ItemReads | internal/responses/request.go:251-337 | the kind, role, text, reasoning and call an item is read as, by the names it carries |
| ResponsesMessages.UnitsMirror | internal/responses/request.go:251-337 | item by item, reading and attaching keep these lists |
| ResponsesRoundTrip.RoundTrip | internal/responses/response.go:84-134 | a response's output fed back becomes assistant messages with the same content, the trimmed reasoning and the same calls in order |
| ResponsesRoundTrip.RoundTripCalls | internal/responses/request.go:292-316 | each returned call has its name, its arguments (empty ones as {}) and its id when there was one |
| AnthropicLifecycle.RunLifecycle | internal/anthropic/stream.go:247-519 | every run is one a checking client accepts: blocks 0 to next-1, nothing open together that may not be, message_stop last; a client that wants tool deltas inside their blocks accepts it exactly if no tool index is resumed after text |
| AnthropicLifecycle.EachBlockOnce | internal/anthropic/stream.go:247-519 | each block is started and stopped exactly once, only tool starts may repeat, and no other index appears |
| AnthropicLifecycle.FinalUsage | internal/anthropic/stream.go:458-467 | without an error the run ends with message_delta and message_stop, and the upstream's own counts win |
| AnthropicContent.ContentKept | internal/anthropic/stream.go:182-310 | for every body and ending, whatever the order of its lines: the text blocks join to the content of all chunks before the first error, the thinking blocks to their reasoning, that of chunks after a call left out; the stream ends with the first error, or with tool_use, max_tokens or end_turn by the last finish reason |
| AnthropicContent.CallsKept | internal/anthropic/stream.go:312-397 | for each tool index one block with the id and name of its first delta, started again when the name came later, and with the joined arguments of all its deltas |
| AnthropicContent.RunSays | internal/anthropic/stream.go:182-519 | block by block the log of every run says what its lines tell |
| AnthropicContent.InputKept | internal/anthropic/stream.go:159-171 | message_start has the input count of the first event or of the request, message_delta the last one any snapshot gave |
| AnthropicContent.EstimateKept | internal/anthropic/stream.go:276-276 | when the upstream never counts output, message_delta has a quarter of the bytes of each delta sent, rounded up |
| AnthropicContent.RunIds | internal/anthropic/stream.go:338-355 | generated tool ids are all different |
| AnthropicProtocol.AcceptedCounts | internal/anthropic/stream.go:399-445 | what acceptance means for the number of starts and stops of each block |
| AnthropicProtocol.StopIsLast | internal/anthropic/stream.go:469-519 | nothing follows message_stop |
| AnthropicLifecycle.CallRefused | internal/anthropic/stream.go:356-394 | what is said on a stopped tool block is what a strict client refuses |
| AnthropicLifecycle.ActFollows | internal/anthropic/stream.go:200-208 | each piece of a chunk keeps the agreement between the bookkeeping and the client |
| AnthropicStream.StreamState.EmitReasoning | internal/anthropic/stream.go:247-278 | the client has exactly the log of the reasoning step and the fields agree, or a proper prefix is out |
| AnthropicStream.StreamState.EmitText | internal/anthropic/stream.go:280-310 | the same for text, which stops open tools and thinking first |
| AnthropicStream.StreamState.EmitToolCalls | internal/anthropic/stream.go:312-397 | the same for tool deltas, late names included |
| AnthropicStream.StreamState.BackfillTool | internal/anthropic/stream.go:357-384 | the same for a late id or name of a known block |
| AnthropicStream.StreamState.CloseThinking | internal/anthropic/stream.go:399-410 | the same for stopping thinking |
| AnthropicStream.StreamState.CloseText | internal/anthropic/stream.go:412-423 | the same for stopping text |
| AnthropicStream.StreamState.CloseOpenTools | internal/anthropic/stream.go:425-445 | every open tool block is stopped, in index order |
| AnthropicStream.StreamState.EmitErrorAndStop | internal/anthropic/stream.go:469-490 | open blocks stop, then error and message_stop |
| AnthropicStream.StreamState.Finish | internal/anthropic/stream.go:492-519 | open blocks stop, then message_delta with the usage and message_stop |
| AnthropicStream.StreamState.ApplyUsage | internal/anthropic/stream.go:458-467 | positive token counts and both cache counts of the snapshot replace the old ones |
| AnthropicStream.StreamState.ConsumeLine | internal/anthropic/stream.go:182-215 | the same for a whole line |
| AnthropicWriteStream.WriteStream | internal/anthropic/stream.go:19-124 | a stream starts unless the body is empty or refused; the client receives the log of the bytes or a proper prefix, and the usage snapshot is that of the bytes |
| AnthropicWriteStream.Drain | internal/anthropic/stream.go:83-101 | every complete buffered line is consumed in order and the partial line stays |
| AnthropicWriteStream.EndOfBody | internal/anthropic/stream.go:103-122 | the unterminated remainder counts only after a proper end; an interruption finishes the stream too |
| AnthropicWriteStream.TranscriptIsRun | internal/anthropic/stream.go:19-124 | what a body delivers is a run of its lines, decoded |
| AnthropicWriteStream.TranscriptLifecycle | internal/anthropic/stream.go:19-519 | for every body and ending: a client accepts the stream, and a strict one exactly if no tool index is resumed after text |
| AnthropicWriteStream.ChunkingIndependence | internal/anthropic/stream.go:80-123 | two readings of the same bytes deliver the same events and snapshot, however reads cut them |
| CopyStream.Relay | internal/httpserver/stream.go:16-82 | the client receives exactly the upstream bytes in order, however reads cut them, and the snapshot depends on the bytes alone |
| CopyStream.RelayRest | internal/httpserver/stream.go:51-82 | the same for the loop after the first event |
| ZenScoring.DecayHealth | internal/zenpool/scoring.go:264-280 | the step loop equals the closed form 70 + (s - 70) * 0.97^n, clamped |
| ZenOutcomes.NeverScored | internal/zenpool/health.go:33-47 | a row nothing was ever recorded in counts as 70 points |
| ZenOutcomes.DecayIs | internal/zenpool/scoring.go:264-280 | an idle score moves 3 percent of its way to 70 for each five full minutes, and stays on the scale from 0 to 100 |
| ZenScoring.DecayPathIndependent | internal/zenpool/scoring.go:264-280 | looking twice equals looking once, exactly for rows never scored or whose next step stays on the scale; every score from 0 to 100 is such |
| ZenScoring.DecayRaises | internal/zenpool/scoring.go:262-280 | decay keeps reachable rows reachable and never lowers their score |
| ZenScoring.SuccessReachable | internal/zenpool/scoring.go:223-236 | a success leaves a score from 0 to 70 and no cooldown reason |
| ZenScoring.FailureReachable | internal/zenpool/scoring.go:245-260 | a failure leaves a score from 0 to 70 and a cooldown reason |
| ZenScoring.SuccessBeatsFailure | internal/zenpool/scoring.go:219-260 | from any state a success gives a strictly higher score than a failure |
| ZenScoring.FirstSuccessLowers | internal/zenpool/scoring.go:96-111 | the first success of a new key lowers its score from 70 to 48 |
| ZenScoring.ComposedLowersIff | internal/zenpool/scoring.go:96-184 | on a score its own outcomes composed, a success lowers it exactly for a new key, and at the eighth sample with at most one success and no failure pending |
| ZenPool.SuccessLowersIff | internal/zenpool/health_outcome.go:54-65 | for every row, a recorded success leaves the score its counts earn, at least 55 for a probe, and so lowers what a reader sees exactly if that was above it |
| ZenPool.IdleSuccessLowers | internal/zenpool/health_outcome.go:54-65 | a row that earned 17.6 decays to above 22 in a quarter of an hour, and the next success takes it to 20 |
| ZenPool.FlooredSuccessLowers | internal/zenpool/health_outcome.go:63-65 | a probe that succeeds lifts a row with twenty failures to 55; the next success takes it to 20 |
| ZenScoring.CooldownDoubles | internal/zenpool/scoring.go:79-92 | the c-th consecutive failure rests a key min(2^(c-1), 16) minutes |
| ZenGuard.Prune | internal/zenpool/health_guard.go:31-43 | drops exactly the stale samples at the front |
| ZenGuard.IsGuardActive | internal/zenpool/health_guard.go:92-106 | active exactly with at least five 5xx making up at least half |
| ZenGuard.WindowIsRecent | internal/zenpool/health_guard.go:48-70 | under a monotone clock the kept samples are the filter of the whole history by the window |
| ZenGuard.GuardMeansStorm | internal/zenpool/health_guard.go:74-106 | the guard is active exactly if the last 60 seconds of the full history hold at least five 5xx, at least half of all |
| ZenHistory.FrozenIff | internal/zenpool/health_outcome.go:86-93 | along every run of the pool, a 5xx is held against nobody exactly if at least five of the outcomes heard of its provider in the last 60 seconds, and at least half, are 5xx |
| ZenService.Service.RecordPaidOutcome | internal/zenpool/health_outcome.go:36-109 | the whole new state of the pool for every outcome, cancellation and store failure |
| ZenOutcomes.OutcomeCounts | internal/zenpool/health_outcome.go:12-109 | along every run a heard outcome is held against its key exactly for 401, 429, or a 5xx outside a storm; any other refusal, network error, abort or egress fault changes no health, cooldown or bench |
| ZenOutcomes.FailureCosts | internal/zenpool/health_outcome.go:80-108 | the score a counted failure leaves, at most ten after a 401, and its rest: the bench for the configured time after a 401, else min(2^(c-1), 16) minutes, or a minute on the bench when that cannot be stored |
| ZenOutcomes.SuccessEarnsPoints | internal/zenpool/health_outcome.go:58-78 | the score a success leaves, at least 55 for a probe, and the average latency |
| ZenOutcomes.UnauthorizedRests | internal/zenpool/health_outcome.go:95-98 | a key whose credentials were rejected is not selected for the configured time, unless a later 429 or 5xx of it cannot store its cooldown |
| ZenOutcomes.PlainSuccessWrites | internal/zenpool/health_outcome.go:69-77 | a success that ends and probes nothing is written exactly if none of the key has been for thirty seconds |
| ZenOutcomes.StormIff | internal/zenpool/health_guard.go:74-89 | along every run the guard holds exactly with at least five 5xx among the outcomes heard of the provider in 60 seconds, and at least half |
| ZenService.Service.RecordSuccess | internal/zenpool/health_outcome.go:58-78 | score, floor of a probe, cleared cooldown, forced or throttled write |
| ZenService.Service.RecordFailure | internal/zenpool/health_outcome.go:80-108 | score, bench or cooldown, and the forced write |
| ZenService.Service.Provider5xxGuardActive | internal/zenpool/health_guard.go:74-89 | looks at the pruned window; pruning in place changes nothing a later note sees |
| ZenService.Service.ShouldPersistSuccess | internal/zenpool/health_runtime.go:62-75 | yes exactly if none was given in the last thirty seconds, and the yes is remembered |
| ZenHistory.YesesApart | internal/zenpool/health_runtime.go:62-75 | along every run, two throttled writes of a key are at least thirty seconds apart |
| ZenService.Service.PersistHealth | internal/zenpool/health_runtime.go:131-140 | stored and no longer dirty, or dirty when the store refuses |
| ZenService.Service.NoteAcquire | internal/zenpool/health_runtime.go:33-49 | one request more, in flight, probing if asked |
| ZenService.Service.NoteRelease | internal/zenpool/health_runtime.go:51-60 | one request less in flight, probing cleared |
| ZenService.Service.MarkBench | internal/zenpool/service.go:343-357 | benched from now for the given or the configured time |
| ZenService.Service.IsBenched | internal/zenpool/service.go:360-375 | true exactly before the deadline; an expired entry is deleted |
| ZenService.Service.BenchedSnapshot | internal/zenpool/service.go:378-399 | exactly the benches still running, the others purged |
| ZenService.Service.RuntimeSnapshot | internal/zenpool/health_runtime.go:15-31 | counts what is left when the stale times at the front are dropped, and drops nothing else |
| ZenHistory.LoadIsRecent | internal/zenpool/health_runtime.go:15-49 | along every run under a monotone clock that is exactly the dials begun in the last five minutes |
| ZenService.Service.ShareCapExceeded | internal/zenpool/health_runtime.go:77-93 | true exactly if one more request would exceed 70 percent of at least ten |
| ZenService.Service.AcquireFor | internal/zenpool/service.go:418-563 | the call's answer, counters and purges equal the eligibility, narrowing and pick of the pure form |
| ZenService.Service.PickOpening | internal/zenpool/service.go:503-562 | the retry loop with its skip set equals picking again among the others |
| ZenWeights.CandidateIff | internal/zenpool/service.go:441-465 | exactly the enabled, untried keys of the provider that neither bench nor cooldown holds are candidates: active without a failure behind them, else to probe, in a real attempt, unless a probe is out |
| ZenWeights.WeightOfCandidate | internal/zenpool/service.go:453-456 | the weight of a candidate is its decayed health less 8 points for each thirty requests and each four in flight, at most 15, to the nearest whole number and at least 1 |
| ZenWeights.WeightOrder | internal/zenpool/scoring.go:51-77 | better health never lowers a weight, more load never raises it, and load takes off at most 15 |
| ZenWeights.FairTurns | internal/zenpool/service.go:523-548 | with the pool fixed, nothing to probe and every key opening, any W consecutive calls select each key exactly as often as its weight; with equal weights each in turn |
| ZenWeights.StickyKeepsKey | internal/zenpool/service.go:513-522 | by the sticky policy a conversation gets the active key its hash ranks highest, whatever weights and counters are |
| ZenWeights.ProbeTurnIff | internal/zenpool/service.go:470-479 | with active keys one turn in twenty is for a probe, without them each |
| ZenSelection.SelectedIsEligible | internal/zenpool/service.go:441-465 | a selected key is enabled, untried, not benched, not cooling, of the right pool and opens; one with a failure behind it only to probe, in a real attempt, alone |
| ZenSelection.UnavailableIff | internal/zenpool/service.go:466-468 | a call fails exactly if nothing on its narrowed list opens |
| ZenSelection.TriedIff | internal/zenpool/service.go:470-501 | an active key is on the list exactly if it is no probe turn and it is within its share |
| ZenSelection.ProbeTurnCanFail | internal/zenpool/service.go:416-417 | a bad ciphertext can fail a call although an active key would open |
| ZenSelection.FailsDespiteActiveIff | internal/zenpool/service.go:416-563 | when some active key opens, a call fails exactly on a probe turn whose probes do not open, or when, by the spread policy, every key that opens is over its share |
| ZenSelection.ShareCapHolds | internal/zenpool/service.go:485-501 | the capped list is never empty, so the fallback is unreachable, and each pick stays within 70 percent |
| ZenSelection.AtMostOneOverCap | internal/zenpool/health_runtime.go:77-93 | at most one candidate is over its share |
| ZenSelection.PickFailsIff | internal/zenpool/service.go:503-562 | the pick loop fails exactly if no ciphertext in the list opens |
| ZenRuns.WriteBackRefinesWriteThrough | internal/zenpool/health_outcome.go:51-108 | over every run, whatever upserts fail or are put off, every reader sees the health of an engine that writes everything through |
| ZenRuns.ForcedWriteStores | internal/zenpool/health_runtime.go:97-140 | after a scored failure, or a success that ends one or a probe, a successful upsert makes the stored row itself current |
| ZenRuns.RunsStayReachable | internal/zenpool/health_outcome.go:56-68 | along every run scores stay from 0 to 70 and a cooldown reason is set exactly while failures are consecutive |
| ZenRuns.ProbationAndBackoff | internal/zenpool/service.go:441-479 | from a key's c-th consecutive counted 429 or 5xx until a success, it is not selected before its cooldown (a minute if the cooldown was not stored) and then only to probe, in a real attempt |
| ZenRuns.FailureRests | internal/zenpool/health_outcome.go:95-108 | a counted 429 or 5xx starts the rest with the count it reaches |
| ZenRuns.StepRests | internal/zenpool/health_outcome.go:36-109 | no step but a recorded success shortens a rest |
| ZenOverlap.OverlappedProbation | internal/zenpool/service.go:424-479 | after any counted failure whose upsert succeeds, or whose key's stored row shows a failure already, no later call, whatever happens between its reads, selects the key but to probe, until it succeeds |
| ZenOverlap.OverlappedBackoff | internal/zenpool/service.go:424-452 | after a key's c-th consecutive counted 429 or 5xx whose cooldown is stored, no later call selects it before that cooldown ends, whatever happens between its reads and whichever upserts fail |
| ZenOverlap.OverlappedBench | internal/zenpool/service.go:434-447 | the same for a minute when the cooldown cannot be stored, by the clock of the call or of a step before it copied the benches |
| ZenOverlap.StepOnRecord | internal/zenpool/health_outcome.go:36-109 | no step but a recorded success takes a failure off the record, whichever later writes fail |
| ZenOverlap.StepCools | internal/zenpool/health_outcome.go:36-109 | no step but a recorded success takes a stored cooldown back or shortens it |
| ZenOverlap.SelectedSeen | internal/zenpool/service.go:441-465 | a selected key was enabled, untried, rested and not benched when each was read, and opens |
| ZenOverlap.UnavailableSeenIff | internal/zenpool/service.go:503-563 | however others draw from the counter, a call fails exactly if nothing on its list opens |
| ZenOverlap.StillAcquires | internal/zenpool/service.go:418-563 | undisturbed, a call taken apart answers as the one-step form |
| ZenRaces.ProbationIff | internal/zenpool/service.go:424-479 | over every run and every call beside it, a counted failure puts its key on probation exactly if its upsert succeeds or the stored row shows a failure already |
| ZenRaces.TornReadSkipsProbation | internal/zenpool/service.go:424-453 | from every state and for every other counted failure there is a run and a call beside it that takes the failed key for a healthy one |
| ZenRaces.BenchEndsForAll | internal/zenpool/service.go:378-399 | for every failure whose cooldown is not stored, a call that forgets the bench at its end lets one that read the clock before select the key, unless it cools down anyway |
| ZenHistory.ProbingIff | internal/zenpool/health_runtime.go:33-60 | along every run a key is marked as being probed exactly while a probing dial of it has begun since a dial of it last finished |
| ZenHistory.ProbeCandidateIff | internal/zenpool/service.go:453-462 | so a failed key that may be dialed is a probe candidate of a real attempt exactly if none has |
| ZenRaces.ProbesCanOverlap | internal/zenpool/service.go:453-479 | from every state with a probe candidate, two calls before its dial begins both select it to probe |
| ZenRaces.AnyFinisherFreesProbe | internal/zenpool/health_runtime.go:51-60 | while its probing dial is out the key is not selected; once any dial of it finishes without a success or a counted failure, the next call probes it beside the one still out |
| ZenRaces.OldDialFreesProbe | internal/zenpool/health_runtime.go:51-60 | a run from an empty pool in which a dial begun before the failure does this |
| ZenRaces.BothOverCapDiffer | internal/zenpool/health_runtime.go:77-93 | when two candidates are both over their share, their two checks counted some candidate's requests differently |
| ZenRaces.ShareCapHoldsSeen | internal/zenpool/service.go:485-501 | while the checks agree on the counts the capped list is never empty, so the fallback is unreachable, and each pick stays within 70 percent |
| ZenRaces.CapCanExcludeAll | internal/zenpool/service.go:485-501 | in a run of fifty dials that begin between two share checks, both keys are excluded, and the list without the cap is used |
| ZenFailover.ProxyPaid | internal/zenpool/failover.go:90-130 | the loop's answer, dialed keys and final state equal the attempts of the pure form |
| ZenAttempts.GoesOnWhileItMay | internal/zenpool/failover.go:97-130 | every dial but the last failed with 401, 429, 5xx or on the way; after such a failure of the last one the configured two to four keys were dialed or none could be acquired; the answer is that of the last dial |
| ZenAttempts.BlamesIff | internal/zenpool/failover.go:58-119 | a dial is held against its key exactly for 401, and without an egress proxy for 429 and 5xx outside a storm |
| ZenAttempts.AsksFor | internal/zenpool/failover.go:98-104 | each acquisition is a real attempt by the call's policy: of the keys of its provider not tried and not held, those without a failure are candidates, and the failed ones no probe is out for are to be probed |
| ZenAttempts.Reports | internal/zenpool/failover.go:111-119 | what a dial reports: its key, provider, probe mark and latency, and the answer itself, except that through an egress proxy 403, 429 and 5xx are reported as a fault of the way |
| ZenFailover.DialsDistinctKeys | internal/zenpool/failover.go:97-130 | the keys dialed are pairwise distinct and at most as many as configured, never more than four |
| ZenFailover.RestoresInflight | internal/zenpool/failover.go:111-119 | a call leaves every key's in-flight count as it found it |
| ZenFailover.EgressSparesKeys | internal/zenpool/failover.go:58-119 | an egress call whose dials end in 429, 403, 5xx or network errors changes no health, cooldown or bench, and leaves the same failed keys being probed |
| ZenFailover.SameKeysEligible | internal/zenpool/service.go:441-465 | such pools make the same keys eligible, active, and probe candidates |
| PaidProxy.DialPaid | internal/httpserver/paid_proxy.go:35-96 | the answer, the named proxy, the keys, the proxies and their cooldowns equal the protocol of the pure form |
| PaidProxy.Course | internal/httpserver/paid_proxy.go:35-96 | which round follows which: direct without a healthy proxy; after a failure that another way may help, the second proxy, and after its failure, or without one, the direct round; which answer is given and which proxies rest how long |
| PaidProxy.RoundsAreShort | internal/httpserver/paid_proxy.go:45-95 | at most two proxy rounds, through different proxies, and at most one direct round, last; the reply names the proxy of the last round |
| PaidProxy.DirectFindsSameKeys | internal/httpserver/paid_proxy.go:66-95 | after proxy rounds that ended in 429, 403, 5xx or network errors the direct round finds the same keys, the probe candidates included |
| WeightedPick.ExactFairness | internal/proxypool/service.go:286-295 | W consecutive counters, W the total weight, pick each entry exactly as often as its weight, from any counter |
| WeightedPick.AtSlot | internal/proxypool/service.go:286-295 | the cumulative loop finds the one entry whose stretch holds the slot |
| ProxyPool.FairRounds | internal/proxypool/service.go:267-308 | with a fixed eligible list that opens, W consecutive selections serve each proxy exactly weight times |
| ProxyPool.NoHealthyProxyIff | internal/proxypool/service.go:226-309 | a selection fails exactly if no eligible proxy decrypts and parses; otherwise it gives an eligible one with its URL |
| ProxyPool.Pool.AcquireExcluding | internal/proxypool/service.go:226-309 | answer and counter equal the pure form |
| ProxyPool.Pool.MarkCooldown | internal/proxypool/service.go:206-216 | exactly the named proxy rests until the deadline; a failed update changes nothing |
| Skipping.UnskippedWithout | internal/proxypool/service.go:271-308 | adding a key to the skip set removes exactly its entry from the list built anew |
| ModelCatalog.ProvidersOf | internal/models/catalog.go:280-301 | primary first, then each other provider once |
| ModelCatalog.MergePaidModels | internal/models/catalog.go:244-267 | the index-map loop equals merging id by id |
| ModelCatalog.MergePreviousOpenCodePaid | internal/models/catalog.go:204-242 | the recovery loop equals re-injecting row by row |
| ModelCatalog.Catalog.FetchAll | internal/models/catalog.go:163-200 | the merge of the three listings, and whether it is partial |
| ModelCatalog.Catalog.ClassifyOpenCodeFree | internal/models/catalog.go:346-366 | exactly the free ids in order, the deny list winning |
| ModelCatalog.Catalog.Begin | internal/models/catalog.go:126-140 | a caller fetches exactly if no fetch is in flight, and keeps the rows it read |
| ModelCatalog.Catalog.End | internal/models/catalog.go:142-161 | a failing refresh keeps the rows; another one replaces them |
| ModelCatalog.CompleteSteps | internal/models/catalog.go:142-161 | when a fetch ends none is in flight; a failed public list keeps the rows and marks them stale, else the merged rows are stored, stale exactly if another listing failed or the paid one was empty |
| ModelCatalog.FetchKeeps | internal/models/catalog.go:163-301 | every row's providers are not empty, without duplicates and headed by the primary; ids are distinct when the public list's are |
| ModelCatalog.FetchHolds | internal/models/catalog.go:163-366 | after a fetch the catalog holds exactly the free models of the public list, the paid ones listed (or, when that listing fails or is empty, those it had), and Ollama's; partial exactly if a listing failed or the paid one was empty |
| ModelCatalog.FetchSays | internal/models/catalog.go:163-301 | of each model: whether it is free, which provider is first, and which serve it |
| ModelCatalog.RunsKeepListed | internal/models/catalog.go:126-161 | along every run of overlapping refreshes at most one fetch is in flight and every row stays well listed |
| ModelCatalog.RunsKeepDistinct | internal/models/catalog.go:126-267 | along every run whose public lists name no model twice, no id appears twice |
| ModelCatalog.RunSingleFlight | internal/models/catalog.go:126-161 | what a fetch read when it started is still current when it ends |
| ModelCatalog.PaidSurvivesOutage | internal/models/catalog.go:170-242 | a paid OpenCode model stays one through any number of refreshes whose Go listing fails or is empty |
| LoginLimiter.Limiter.Prune | internal/auth/service.go:384-396 | drops exactly the stamps at the front that left the window; an empty list is deleted |
| LoginLimiter.Limiter.IsBlocked | internal/auth/service.go:358-363 | blocked exactly with five stamps left |
| LoginLimiter.Limiter.ReserveFailure | internal/auth/service.go:367-376 | records exactly while the source is not blocked |
| LoginLimiter.Limiter.Clear | internal/auth/service.go:378-382 | forgets the source and no other |
| LoginLimiter.SixFailuresSpanWindow | internal/auth/service.go:73-99 | in every interleaving the sixth failure recorded in a row comes at least fifteen minutes after the first one's login began |
| LoginLimiter.OrderedRunSpans | internal/auth/service.go:351-396 | when the stamps of a source do not go back, however long its logins take, the stamps of any six failures recorded in a row span fifteen minutes |
| LoginLimiter.OrderDecides | internal/auth/service.go:73-91 | every run of logins in order up to a check and a failure with two given stamps spans the window exactly if these two are in order as well |
| LoginLimiter.BlockedIff | internal/auth/service.go:358-396 | when the stamps of a source do not go back, it is blocked exactly if five failures of its full history since its last success lie in the window |
| LoginLimiter.FiveBlock | internal/auth/service.go:358-396 | in any order of stamps, five such failures block |
| LoginLimiter.StampsCanLieCloser | internal/auth/service.go:73-91 | for any two begin times there is a run of logins, each with its check, in which the early one fails after the check of the late one and the stamps of six failures lie too close |
| KeyWindows.Store.ConsumeWindow | internal/keys/sqlite_store.go:111-152 | counts or denies in one window: new, reset, full or one more |
| KeyWindows.Store.VerifyAndConsume | internal/keys/sqlite_store.go:28-56 | accepted exactly for a usable key with room in both windows when the transaction commits; every denial leaves the usage unchanged, so one by the minute limit takes the day count back by the rollback |
| KeyWindows.LimitsHold | internal/keys/sqlite_store.go:104-152 | whatever other keys do, under a monotone clock no UTC minute or day accepts more of a key than its limit, and each counter is the number accepted in its window |
| KeyWindows.AcceptedIff | internal/keys/sqlite_store.go:104-152 | a request is accepted exactly if its key is usable and fewer than the limit of its own were accepted in its day and its minute, a limit of zero allowing all |
| KeyWindows.OthersKeep | internal/keys/sqlite_store.go:111-152 | a request of one key leaves the rows of every other alone |

## Left out

- HTTP, SQL, encryption, bcrypt, TLS and proxy dialing, and the idle-timeout goroutine (reads cut bodies anywhere, and may be interrupted).
- JSON encoding and decoding, rate-limit and error detection in a first event (an unknown test on its bytes), and the pages the scrapers read.
- Failure of random id generation, which in `internal/anthropic/stream.go:339-345` would leave a block that is stopped but never started.
- Rounding of floating-point scores and of the hash behind affinity; scores are reals and the hash is unknown.
- ZenService.Service.AcquireFor: the method is one step; `ZenOverlap` and `ZenRaces` treat a call that others disturb on values, with the recording of an outcome as one step.
- ResponsesStream.StreamState.CloseReasoning: the index field, which nothing reads while no reasoning is open, is set back to 0.
- ResponsesAgreement.StreamAgreesWithMessage: calls are accumulated in the order their indexes are first seen; an upstream that lists them by index lists them so when first sightings ascend.
- AnthropicStream.StreamState.CloseOpenTools: stops the open indexes by counting up instead of collecting and sorting them.
- `ProxyFree` (`internal/proxypool/failover.go:65-97`), a shorter form of the paid protocol over the same pool.
- Conversion of tool definitions and of request options, effort tables, the request log, usage sync, quotas, admin handlers, configuration, migrations and the web interface.
