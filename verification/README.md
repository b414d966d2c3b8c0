# Hekato-Go, modelled and proved in Dafny

Hekato-Go is an LLM gateway. This project models the parts of it that hold state across calls and have to
agree with something simpler than themselves, and proves that they do. `dafny verify dfyconfig.toml` checks
everything.

**The streaming pipeline.** Both stream handlers push upstream text through an incremental splitter that
separates thinking from visible text, holding back up to 15 characters so that a tag cut in two is never
missed, and letting only one of two rival sources deliver thinking.

- `ThinkingSplit` is the splitter, as the class of its captured variables and as a function of their values;
  `SplitLaws` proves that it refines a one-pass split of the whole text (`ChunkIndependence`, `SingleSource`)
  and that the thinking states it sends are well bracketed (`WellBracketed`), `HeldBack` that it never lags behind
  by more than 50 characters.
- `ThinkingTags` does the same for the formats that show thinking as content between tags.
- `ThinkingExtract` is the whole-string extractor of non-stream answers, with the exact condition under which
  it agrees with the splitter.
- `ClaudeStream` is the Claude handler: emitter, callbacks, failover loop. `ClaudeEvents` holds the grammar of
  its events and what the consumer `consumeSSE`, which another gateway instance would read them with, makes of
  each; `ClaudeCallbacks` is that consumer, and what it has to call back, told from the event list alone.
  `ClaudeLaws` proves the grammar on every run, that a successful answer is parsed back to what was sent, and
  that an answer comes from one account; `ClaudeReading` that thinking reaches a client that shows it;
  `ClaudeFailover` which attempt the client hears, told by callbacks and outcomes.
- `OpenAiStream` and `OpenAiLaws`, `ResponsesStream`, `ResponsesLaws`, `ResponsesItems` and `ResponsesFailover`
  are the two other stream handlers.
- `ToolCalls` is the accumulator that reassembles streamed tool calls.

**Caches and indexes that must agree with a log.** `HashFraming`, `CacheProfile`, `CacheTracker` and `CacheLaws`
model the prompt-cache tracker: fingerprints of block prefixes, sliding expiry, pruning, and the usage
reported. Its specification is the log of everything stored or hit; `CacheReports` says what each report has to
be in terms of that log and the request's blocks. `Tallies`, `Metrics` and `MetricsCollector` model the
seven-day ring of minute buckets, its queries, and its flushing to a store. Its specification is the unbounded
log of everything recorded, and `LogCounts` counts that log entry by entry.

**Schedulers.** `RoundRobin` and `AccountPool` model the weighted picker with its cooldown fallback,
`KeyLimiter` the per-key limits, `AutoRoute` the search and the bandit behind the `auto` model.

**Stored responses.** `ResponseChain` walks `previous_response_id` links and rebuilds a conversation.

`Basics` (optional values, the ends of sequences), `Text` (substring search over code points), `Spaces`
(trimming), `Wire` (tool uses, JSON values, callbacks) and `Failover` (which attempt answers) are shared.

## How the model stands to the code

Code that updates captured variables, fields, maps or slices is a class or a method with a loop, proved
against a function of the old values; the laws are lemmas about that function. Where a method is split in
two or more here (`Splitter`, `Query`, `Resolve`, the handlers), the pieces are the branches and nested loops
of the one closure or function cited, and they are put together again by the method of that name.
JSON marshalling of tool inputs is a parameter whose inverse law is an assumption (`Wire.Codec.Inverse`), a
stored metrics row is what it decodes to, SHA-256 is a parameter taken to be collision-free (`Collisionless`),
the clock a number that does not go back, failures and random draws parameters of any value.

Six promises do not hold as one would expect them to, and the condition under which they do is proved.

- Stream and non-stream answers can differ even when every thinking tag is closed: `extractThinkingFromContent`
  rescans from the start after cutting a block out, and finds a tag that the cut has spelled
  (`ThinkingExtract.SpelledTagSwallows`). They agree exactly when every tag is closed and the cuts spell none
  (`ThinkingExtract.ReturnedAgreesIff`).
- The Responses handler closes a message item with all text of the attempt so far, not with the item's own:
  at a tool use as it is (`ResponsesLaws.ClosedWithEarlierText`), at the end extracted and trimmed
  (`ResponsesLaws.ClosedTrimmed`). When that is the text of the item's deltas is stated exactly for both
  (`ResponsesLaws.ClosingTextIsOwnIff`, `ResponsesLaws.FinalTextIsOwnIff`).
- The output list of the completed response has one message in front of all calls, so it is not always the list
  of items streamed. When they agree is stated exactly (`ResponsesItems.ListsAgreeIff`).
- A cached prefix can be gone before the TTL it was stored with is over: a later store of the same blocks with
  a shorter TTL replaces it (`CacheLaws.RestoreCutsShort`). It is live exactly until the TTL of the last store is
  over, counted from that store or from the last hit since (`CacheLaws.LiveIff`, `CacheLaws.FoundIff`).
- The in-flight counter of a key with an id and a concurrency limit equals admissions minus releases exactly as
  long as no more is released than was admitted (`KeyLimiter.ReleasedTwice`). Keys with a rate limit only are not
  counted (`KeyLimiter.RateOnlyKey`), and the empty id never gives a slot back (`KeyLimiter.ReleasedWithoutId`).
  `KeyLimiter.Limiter.InFlightIsBalanceIff` has the exact condition for each.
- The auto-router can pick nobody though there are candidates (`AutoRoute.UnclampedPicksNobody`); the code
  would dereference a nil account there, the model answers `NothingScored`. Somebody is picked whatever the
  random numbers exactly if the weights leave some candidate a factor above -1 (`AutoRoute.AlwaysPicksIff`),
  as the weights do that the admin API clamps to [0, 1].

## Model

| member | source | states |
|---|---|---|
| ThinkingSplit.Splitter.AllowReasoningSource | proxy/handler.go:278-284 | reasoning events claim the attempt unless tags have |
| ThinkingSplit.Splitter.AllowTagSource | proxy/handler.go:286-294 | tagged text claims the attempt if nobody has |
| ThinkingSplit.Splitter.OutsideBlock | proxy/handler.go:1681-1704 | one loop iteration outside a block: text before the tag, or all but the last 15 characters of a long buffer |
| ThinkingSplit.Splitter.InsideBlock | proxy/handler.go:1705-1755 | one loop iteration inside a block, with the closing tag, a flush, or neither |
| ThinkingSplit.Splitter.DrainBuffer | proxy/handler.go:1680-1756 | the loop ends and its sends and final variables are those of iterating `Turn` |
| ThinkingSplit.Splitter.ProcessText | proxy/handler.go:1653-1757 | the closure, for events, text and flushes, against the function `Process` |
| ThinkingSplit.RunIsSteps | proxy/handler.go:1844-1847 | a completed stream is the callbacks followed by one forced flush |
| SplitLaws.DrainExact | proxy/handler.go:1680-1756 | whatever is still to come, what is sent and what is still buffered make up the one-pass split |
| SplitLaws.RunSound | proxy/handler.go:1653-1757 | the final flush leaves nothing buffered and nothing open; a claimed source stays claimed |
| SplitLaws.RunExact | proxy/handler.go:1653-1757 | unless events claimed the attempt, the labelled characters are the one-pass split of each section, in order, tool uses in place |
| SplitLaws.ChunkIndependence | proxy/handler.go:1653-1757 | the same for every way of cutting text into chunks, when no reasoning event gets through |
| SplitLaws.WholeText | proxy/handler.go:1653-1757 | plain text in any chunks gives the split of the whole text |
| SplitLaws.RunProjected | proxy/handler.go:1658-1676 | unless tags claimed the attempt, visible characters are unchanged and the thinking is the events' |
| SplitLaws.RunIsClaimed | proxy/handler.go:269-294 | who has claimed the attempt is told by the callbacks alone: tags once a section's text holds an opening one, events at the first non-empty one before that, else nobody |
| SplitLaws.SingleSource | proxy/handler.go:269-294 | on every interleaving visible text never depends on events, and the thinking is all of theirs and none of the tagged if events claimed the attempt, else all of the tagged and none of theirs |
| SplitLaws.WellBracketed | proxy/handler.go:1653-1757 | the thinking states sent form a word of (0 or 1 2* 3)*, tool uses only outside a segment, nothing open at the end |
| SplitLaws.RunHoldsEverything | proxy/handler.go:1653-1757 | the sends of any run are well bracketed and hold every visible character and all the thinking of the source that claimed the attempt |
| HeldBack.StepsDrain | proxy/handler.go:1680-1756 | after any callbacks at most 50 characters outside a block and 20 inside are held back, and no whole tag |
| HeldBack.LagIsBounded | proxy/handler.go:1653-1757 | what has been sent by then is the beginning of what will be sent of the text received, all but at most 50 characters |
| ThinkingTags.TurnRetags | proxy/handler.go:1680-1756 | one iteration adds to the content exactly what the one-pass replacement of the tags loses |
| ThinkingTags.ContentIsRetagged | proxy/handler.go:2552-2626 | where thinking is content between tags, the content is each section with its tags replaced, in any chunks |
| ThinkingTags.TextIsMended | proxy/handler.go:2563-2584 | with the tags kept, text passes through unchanged but for a block left open: closed, or dropped if empty |
| ThinkingExtract.ExtractThinkingFromContent | proxy/translator.go:963-987 | the removal loop terminates with the extraction the recursion defines, trimmed |
| ThinkingExtract.OnePassIsSplit | proxy/translator.go:963-987 | the reference used for strings is the splitter's reference |
| ThinkingExtract.Disturbs | proxy/translator.go:963-987 | whatever the splices spell, the loop removes at least the blocks of the one-pass split |
| ThinkingExtract.ExtractAgreesIff | proxy/translator.go:963-985 | before trimming, it agrees with the split exactly if every tag is closed, the visible text in front of the last block spells no opening tag, and the whole visible text no pair of tags |
| ThinkingExtract.ReturnedAgreesIff | proxy/translator.go:963-987 | what is returned, trimmed, agrees with the trimmed visible text under exactly the same condition |
| ThinkingExtract.ExtractAgrees | proxy/translator.go:963-987 | it agrees whenever every tag is closed and the visible text contains no opening tag |
| ThinkingExtract.SpelledTagSwallows | proxy/translator.go:963-987 | a text with every tag closed for which they differ |
| ClaudeCallbacks.ConsumeSSE | providers/anthropiccompat/anthropiccompat.go:218-353 | the consumer's loop over events, with its block map, counters and stop reason, makes the callbacks that the event list alone calls for |
| ClaudeCallbacks.ConsumedIs | providers/anthropiccompat/anthropiccompat.go:218-353 | on every event list, well formed or not, what is called back is what each event says by its place in the list: text of open blocks and of announcements, tool uses, the last stop reason and the last positive counts |
| ClaudeCallbacks.ToolIsCalledBack | providers/anthropiccompat/anthropiccompat.go:275-323 | a stopped tool block is called back with the id and name it was announced with and the decoding of all its fragments, joined in order whatever other indices interleave; null if they are empty, kept as raw text if invalid |
| ClaudeStream.Emitter.EnsureMessageStart | proxy/handler.go:1464-1482 | message_start is sent once |
| ClaudeStream.Emitter.CloseActiveBlock | proxy/handler.go:1518-1528 | the open block, if any, is stopped |
| ClaudeStream.Emitter.StartContentBlock | proxy/handler.go:1530-1562 | a block of another type closes the open one and takes the next index |
| ClaudeStream.Emitter.Send | proxy/handler.go:1571-1651 | what one call of sendText emits in each thinking format |
| ClaudeStream.Emitter.Tool | proxy/handler.go:1782-1812 | a tool use is a complete block of its own |
| ClaudeStream.Emitter.FinishMessage | proxy/handler.go:1877-1888 | message_delta and message_stop end a successful answer |
| ClaudeStream.Deliver | proxy/handler.go:1759-1813 | callbacks drive the splitter and it the emitter |
| ClaudeStream.Complete | proxy/handler.go:1844-1888 | the flush, the closing and the stop reason of a successful attempt |
| ClaudeStream.CallUpstream | proxy/handler.go:1828-1889 | an upstream failure is retried only before message_start, else reported as an error event |
| ClaudeStream.HandleClaudeStream | proxy/handler.go:1485-1899 | the failover loop of up to three attempts |
| Failover.Answering | proxy/handler.go:1485-1842 | the attempt that answers is the first that is not retried |
| ClaudeLaws.EmitReads | proxy/handler.go:1464-1562 | on every run and in every format: message_start first and once, indices 0, 1, 2, ..., deltas only of the open block's index and type, each block stopped before the next |
| ClaudeLaws.FinishReads | proxy/handler.go:1877-1888 | the end is accepted only with all blocks closed, then message_delta, then message_stop |
| ClaudeLaws.AnswerReads | proxy/handler.go:1828-1889 | a successful answer is grammatical and complete, a failed one grammatical up to its error event |
| ClaudeLaws.OneAccountPerAnswer | proxy/handler.go:1485-1842 | what the client gets is nothing, or one attempt's answer as if it had been the only one |
| ClaudeLaws.RetriedIsSilent | proxy/handler.go:1833-1835 | an attempt that is retried has sent nothing |
| ClaudeLaws.RoundTrip | providers/anthropiccompat/anthropiccompat.go:218-353 | fed a successful answer the consumer makes the callbacks that were sent, in order, with tool uses, stop reason and positive token counts |
| ClaudeLaws.EndToEnd | providers/anthropiccompat/anthropiccompat.go:218-353 | from upstream chunks to the consumer: the visible half of the one-pass split, same tool uses in place, whatever events interleave |
| ClaudeLaws.EndToEndAsText | proxy/handler.go:1591-1627 | where thinking is shown as text, on every run: the content of a well-bracketed sequence of sends holding everything received; each section with its tags replaced, unless by its callbacks events claimed the attempt |
| ClaudeReading.AnswerTells | proxy/handler.go:1571-1651 | in every format, reading text, thinking and tool blocks off an answer gives exactly what was sent, its visible half, or its content with the thinking in it |
| ClaudeReading.ThinkingArrives | proxy/handler.go:1571-1651 | where thinking has blocks of its own, a successful answer tells all visible text and all the thinking of the source that claims the attempt; where it is off or omitted, the visible text and nothing else |
| ClaudeReading.BrokenOffTellsBeginning | proxy/handler.go:1828-1842 | an answer that breaks off tells the beginning of what it would have told |
| ClaudeFailover.StartedIff | proxy/handler.go:1653-1842 | message_start has been sent exactly if the callbacks hold a tool use, a reasoning event that claims the attempt, or enough text: more than 50 characters outside a block or any before one, more than 20 inside one or any in a closed one where thinking is on |
| ClaudeFailover.FirstToSpeakAnswers | proxy/handler.go:1485-1899 | the first of three attempts that succeeded, or got a message started before it failed, is the one heard: all it received, its stop reason and counts, or all but the last 50 characters and its error; else nothing is sent |
| OpenAiStream.Sender.SendChunk | proxy/handler.go:2552-2648 | the chunk written for each thinking state and format, or none |
| OpenAiStream.Deliver | proxy/handler.go:2759-2809 | callbacks drive the splitter and the sender; whether anything was produced is tracked exactly |
| OpenAiStream.CallUpstream | proxy/handler.go:2818-2908 | a failed attempt that produced nothing is retried in silence, any other ends the stream |
| OpenAiStream.HandleOpenAIStream | proxy/handler.go:2511-2908 | the failover loop of up to three attempts |
| OpenAiLaws.OneAccountPerAnswer | proxy/handler.go:2511-2844 | nothing, or the answer of a single attempt |
| OpenAiLaws.NothingLost | proxy/handler.go:2824-2844 | on every run and in every format, an attempt that produced output shows everything received, even if it failed, then one finish chunk and one [DONE]; exactly what one pass over the text shows, unless by its callbacks events claimed the attempt |
| OpenAiLaws.NothingLostWithoutEvents | proxy/handler.go:2824-2844 | in particular when no reasoning events get through |
| OpenAiLaws.FirstToSpeakAnswers | proxy/handler.go:2511-2908 | the first of three attempts that succeeded, or received a tool use, visible text or shown thinking before it failed, is the one heard, with everything it received, one finish chunk with its reason and counts, and one [DONE]; else nothing is sent |
| OpenAiLaws.NothingVisibleLost | proxy/handler.go:2552-2648 | what is shown is a well-bracketed sequence of sends with every visible character and all the thinking of the source that claimed the attempt, in every format |
| OpenAiLaws.ToolsAreNumbered | proxy/handler.go:2773-2802 | tool calls are numbered 0, 1, 2, ... in order |
| ResponsesStream.Responder.OnTextCallback | proxy/responses_handler.go:469-489 | a text delta, behind the message item it opens |
| ResponsesStream.Responder.OnToolUseCallback | proxy/responses_handler.go:490-556 | a tool use closes the message item and is an item of its own |
| ResponsesStream.CallUpstream | proxy/responses_handler.go:569-654 | retried only before the response has started |
| ResponsesStream.HandleResponsesStream | proxy/responses_handler.go:366-683 | the failover loop, its notices and its failures |
| ResponsesLaws.StepsRead | proxy/responses_handler.go:440-556 | items are numbered without gaps, each is done before the next, deltas name the open item |
| ResponsesLaws.ServeReads | proxy/responses_handler.go:378-683 | every run of the loop is grammatical to its end |
| ResponsesLaws.OneAccountPerAnswer | proxy/responses_handler.go:569-590 | apart from progress notices, one failure or one attempt's answer |
| ResponsesLaws.DeltasAreTheText | proxy/responses_handler.go:469-489 | the deltas of an attempt are its visible text, all of it in order |
| ResponsesLaws.ClosingTextIsOwnIff | proxy/responses_handler.go:490-519 | a tool use closes the message with the item's own text exactly if nothing was said before the item |
| ResponsesLaws.ClosedWithEarlierText | proxy/responses_handler.go:490-519 | text, tool, text, tool: the second message is closed with the text of both |
| ResponsesLaws.FinalTextIsOwnIff | proxy/responses_handler.go:592-623 | the end of a successful attempt closes the message with its own text exactly if that is trimmed and the extraction leaves it in white space only; for an item that neither holds nor completes a tag, if only white space is left of the text before it; without thinking blocks, if only white space came before; with nothing before, if it holds no thinking block |
| ResponsesLaws.NoBracketIsInert | proxy/translator.go:963-985 | text without a closing bracket neither holds nor completes a tag |
| ResponsesLaws.ClosedTrimmed | proxy/responses_handler.go:592-623 | a message whose only text is " hi" is closed with "hi" |
| ResponsesItems.BuildOutput | proxy/responses_handler.go:271-313 | the completed list: one message unless blank, then all calls, and never nothing |
| ResponsesItems.ListsAgreeIff | proxy/responses_handler.go:469-654 | the completed list is the list of items streamed exactly if, without tool uses, there was any text; with them, no text came behind the first, and what came before it is nothing, or trimmed and without a thinking block |
| ResponsesFailover.FirstToSpeakAnswers | proxy/responses_handler.go:366-683 | apart from notices, the first of three attempts that succeeded, or received visible text or a tool use before it broke, is the one heard, with all its text and tool uses and its end; else the last attempt's failure |
| ToolCalls.ToolCallAccumulator.AddDelta | providers/wire.go:46-66 | one delta opens a call or extends the one its index stands for |
| ToolCalls.ToolCallAccumulator.Add | providers/wire.go:45-67 | a batch of deltas is merged one by one into the calls and slots |
| ToolCalls.ArgumentsConserved | providers/wire.go:45-67 | on every input the assembled arguments are as long as all fragments together |
| ToolCalls.Reassembles | providers/wire.go:45-70 | under any interleaving, one id per index, calls come out in opening order with their own fragments joined, their id, name and the kind they were opened with |
| ToolCalls.CompleteCallsStaySeparate | providers/wire.go:45-70 | complete calls without an index but with distinct ids stay separate |
| HashFraming.WriteHashChunk | proxy/cache_tracker.go:596-602 | what is written to the hash for one chunk |
| HashFraming.FramesInjective | proxy/cache_tracker.go:596-602 | different chunk sequences have different framings, whatever bytes they hold |
| CacheProfile.NormalizeTTL | proxy/cache_tracker.go:472-483 | TTLs come out as none, five minutes or an hour |
| CacheProfile.AddBlock | proxy/cache_tracker.go:82-111 | one block goes into the running hash and the counts, and is a breakpoint when it has a TTL or ends a message behind one |
| CacheProfile.BuildClaudeProfile | proxy/cache_tracker.go:71-126 | the loop with one running hash against the list of breakpoints |
| CacheProfile.BreakpointsAre | proxy/cache_tracker.go:82-111 | the breakpoints are exactly the prefixes that end in a block with a TTL of its own, or end a message behind one, and are stored for the TTL given last |
| CacheProfile.PointsDescribe | proxy/cache_tracker.go:82-111 | each breakpoint is the fingerprint, size and TTL of exactly one prefix of the blocks |
| CacheProfile.PointsRise | proxy/cache_tracker.go:79-111 | breakpoints are counted cumulatively and never beyond the blocks' total |
| CacheProfile.ComputePromptCacheTTLBreakdown | proxy/cache_tracker.go:485-507 | the loop against the recursion over breakpoints |
| CacheProfile.BreakdownTelescopes | proxy/cache_tracker.go:485-507 | the two parts are non-negative and add up to what lies beyond the match |
| CacheReports.PartsByToken | proxy/cache_tracker.go:485-507 | the 1h part counts exactly the tokens whose first breakpoint reaching beyond them is stored for an hour |
| CacheProfile.Accounting | proxy/cache_tracker.go:142-193 | the parts sum to min(last breakpoint, total) minus the match, creation never exceeds it, the 85% cap holds once there are entries, billed + creation + read is max(input, creation + read) |
| CacheLaws.ReportsAreAccounted | proxy/cache_tracker.go:128-194 | that holds of every usage reported on every run |
| CacheReports.EveryReportIs | proxy/cache_tracker.go:128-194 | on every run: with something live the longest live breakpoint of 4096 (opus) or 1024 tokens and more is read, capped at 85% of the request, and nothing without one, the rest under the cap created; with nothing live all that is cacheable is created if it reaches the threshold; the tokens not read are split by TTL |
| CacheReports.RepeatIsRead | proxy/cache_tracker.go:128-223 | a request of 4096 tokens repeated a second later reads 3481 and creates none |
| CacheTracker.PromptCacheTracker.PruneExpired | proxy/cache_tracker.go:225-236 | exactly the expired entries go, and nothing of the history changes |
| CacheTracker.PromptCacheTracker.FindMatch | proxy/cache_tracker.go:166-184 | the longest breakpoint at or above the threshold that is live, and its expiry slides |
| CacheTracker.PromptCacheTracker.Compute | proxy/cache_tracker.go:128-194 | the usage as a function of the history alone, and the hit it adds |
| CacheTracker.PromptCacheTracker.Update | proxy/cache_tracker.go:196-223 | every breakpoint at or above the threshold is stored |
| CacheTracker.LookupIsLive | proxy/cache_tracker.go:173-176 | after pruning an entry is found exactly if that block sequence was stored or hit less than its TTL ago |
| CacheLaws.Replay | proxy/cache_tracker.go:128-236 | over every run of Compute and Update, what is reported is a function of the calls: pruning is unobservable |
| CacheLaws.ReadWasStored | proxy/cache_tracker.go:166-184 | a read comes from a breakpoint whose exact block sequence was stored for that account |
| CacheLaws.LastStoreRules | proxy/cache_tracker.go:166-223 | whatever is computed, updated and pruned in between, the entry of a block sequence has the TTL of its last store and the time of that store or of the last hit since |
| CacheLaws.LiveIff | proxy/cache_tracker.go:166-223 | so it is live exactly until that TTL is over, counted from that time |
| CacheLaws.FoundIff | proxy/cache_tracker.go:166-223 | and a request with that prefix as a breakpoint finds it exactly until then |
| CacheLaws.StoredIsFound | proxy/cache_tracker.go:196-223 | in particular a breakpoint stored by any earlier call is found while neither its TTL nor that of a later store of the same blocks is over |
| CacheLaws.RestoreCutsShort | proxy/cache_tracker.go:218-221 | two stores of which the second, with a shorter TTL, ends the first one's early |
| CacheLaws.HitSlides | proxy/cache_tracker.go:177-178 | a hit keeps the prefix live for its TTL from then on |
| RoundRobin.ExactShares | pool/account.go:375-407 | over as many picks as there are eligible slots, each id gets its number of slots, from any counter |
| RoundRobin.ExactSharesOver | pool/account.go:375-407 | the same over any number of turns |
| AccountPool.Pool.Reload | pool/account.go:56-86 | the weighted list: each account not over quota as often as its weight |
| AccountPool.Pool.Usable | pool/account.go:386-406 | the checks of the picker, in order |
| AccountPool.Pool.Check | pool/account.go:379-406 | an entry is taken only if ready, and run alone whenever it is; otherwise its account is put aside |
| AccountPool.Pool.Scan | pool/account.go:375-407 | up to one turn of the counter; run alone, the next ready slot, or a whole turn in vain |
| AccountPool.Pool.Fallback | pool/account.go:409-436 | the first candidate without a cooldown, else the one whose cooldown ends first |
| AccountPool.Pool.GetNextForModelExcluding | pool/account.go:360-437 | an account is returned if and only if a candidate exists, even if others move the counter; run alone never a cooling or expiring one while one is ready; never one excluded, filtered out or without quota |
| AccountPool.SlotsAreWeights | pool/account.go:56-86 | in the weighted list a ready account has as many slots as its effective weight |
| AccountPool.ExactWeightedShares | pool/account.go:360-407 | as many consecutive calls as the ready accounts weigh return each exactly its weight times |
| AccountPool.TakeShares | pool/account.go:56-437 | of the pool itself: after a reload, that many calls return each account exactly its weight times |
| KeyLimiter.Limiter.Acquire | proxy/ratelimit.go:25-54 | the verdict as a function of the history; an admission is entered in both counts, a refusal in none; what is in flight stays within the limit |
| KeyLimiter.Limiter.CountInWindow | proxy/ratelimit.go:35-49 | refused if and only if as many admissions as the limit lie in the last minute |
| KeyLimiter.Limiter.Release | proxy/ratelimit.go:57-69 | one slot of that key is given back, never below zero |
| KeyLimiter.NoWindowExceeds | proxy/ratelimit.go:35-49 | no half-open minute of any run holds more admissions than the limit |
| KeyLimiter.Limiter.RateIsKept | proxy/ratelimit.go:25-69 | the same for every key of a limiter in use |
| KeyLimiter.Limiter.InFlightIsBalanceIff | proxy/ratelimit.go:50-68 | a key with an id and a concurrency limit: in flight is admitted minus released exactly as long as no more was released than admitted, and more after that; the empty id: exactly as long as nothing was released; without a concurrency limit: always 0 |
| KeyLimiter.RateOnlyKey | proxy/ratelimit.go:35-54 | a key with a rate limit only is admitted and not counted in flight |
| KeyLimiter.ReleasedTwice | proxy/ratelimit.go:57-69 | a release too many is forgotten, and the count is no longer the balance |
| KeyLimiter.ReleasedWithoutId | proxy/ratelimit.go:57-69 | the slot of a key without an id is not given back |
| KeyLimiter.Limiter.LimitIsKept | proxy/ratelimit.go:32-34 | what is in flight for a key never exceeds its limit |
| Tallies.PercentileFromHist | proxy/metrics.go:261-280 | the loop finds the slot in which the sample of the wanted rank lies |
| Tallies.HistogramCounts | proxy/metrics.go:208-216 | up to each edge the histogram counts the sampled latencies that do not exceed it |
| Tallies.PercentileIsLeastEdge | proxy/metrics.go:261-280 | a percentile is the least edge that the target number of samples does not exceed, or the overflow value if none is |
| Tallies.LoggedSplits | proxy/metrics.go:313-343 | sums over adjacent spans of the log add up |
| LogCounts.FiguresAreCounts | proxy/metrics.go:193-237 | requests, errors, tokens, credits, sampled latencies and cache tokens of a span are those counted entry by entry in the log |
| LogCounts.BreakdownsAreCounts | proxy/metrics.go:175-220 | each breakdown has a row exactly for the keys requests came under, with their number, errors, tokens, credits and latencies, failed ones included |
| Metrics.RecordedIsSound | proxy/metrics.go:193-237 | recording keeps the ring complete and every minute durable, although it may reuse an old slot |
| Metrics.TakenIsSound | proxy/metrics.go:131-149 | so does taking the dirty rows |
| Metrics.SavedIsSound | proxy/metrics.go:151-160 | so does a save that succeeds |
| Metrics.UnsavedIsSound | proxy/metrics.go:151-159 | so does a save that fails after writing any part of the rows |
| Metrics.PrunedIsSound | proxy/metrics.go:160-162 | so does pruning the store |
| Metrics.LoadedIsSound | proxy/metrics.go:98-124 | a loaded collector starts out sound |
| Metrics.RingRefinesLog | proxy/metrics.go:299-366 | over any span of the window the ring answers what was restored plus everything the unbounded log holds |
| Metrics.RingIsLog | proxy/metrics.go:299-366 | with nothing restored, exactly what the log holds |
| MetricsCollector.Bump | proxy/metrics.go:175-191 | one request is added to the counter of its key, "-" for none |
| MetricsCollector.BumpAggregate | proxy/metrics.go:368-379 | counters are added to their namesakes, in whatever order keys come |
| MetricsCollector.AddServed | proxy/metrics.go:202-219 | one request adds exactly its contribution to its minute: counts, sample and breakdowns |
| MetricsCollector.Collector.BucketFor | proxy/metrics.go:165-173 | the minute's bucket, which replaces an older minute's |
| MetricsCollector.Collector.Record | proxy/metrics.go:193-220 | the whole new state after one request |
| MetricsCollector.Collector.RecordCache | proxy/metrics.go:226-237 | the whole new state after a cache split, or no change |
| MetricsCollector.Collector.Load | proxy/metrics.go:98-124 | the window is restored as the readable rows say, from rows in any order |
| MetricsCollector.Collector.TakeDirty | proxy/metrics.go:131-149 | the rows of the dirty minutes still held, which are then clean |
| MetricsCollector.Collector.SaveTaken | proxy/metrics.go:151-162 | rows saved and pruned, or marked dirty again, with records in between |
| MetricsCollector.Collector.Query | proxy/metrics.go:299-366 | totals, breakdowns and percentiles of everything restored and recorded in the last `minutes` minutes, and a point for each span of `step` |
| Metrics.SpansCover | proxy/metrics.go:313-317 | every minute of the window is in exactly one span, for every step |
| Metrics.QueryIsReadOff | proxy/metrics.go:299-366 | with nothing restored, every figure of totals and points is counted off the unbounded log entry by entry, averages are the means of the sampled latencies, percentiles the least edge that enough of them do not exceed, and every row of the three breakdowns counts the requests under its key |
| MetricsCollector.Restart | proxy/metrics.go:98-163 | a restart holds every minute as before unless it was pending, and then lacks only what was recorded last |
| ResponseChain.Climb | proxy/responses_history.go:54-68 | one step back, unless the id is empty, visited or not stored |
| ResponseChain.CollectAncestorChain | proxy/responses_history.go:49-75 | the walk with its visited set, bound and reversal gives the chain |
| ResponseChain.Reverse | proxy/responses_history.go:70-73 | swapping from both ends reverses |
| ResponseChain.ChainIsUnique | proxy/responses_history.go:45-75 | on every store, cyclic or not: oldest first, at most 65, adjacent nodes linked, ending in the response, stopping only where it must, and no other sequence is so |
| ResponseChain.NodesAreDistinct | proxy/responses_history.go:51-65 | with canonical ids no response appears twice |
| ResponseChain.ExtendsParentIff | proxy/responses_history.go:49-75 | a chain is the parent's chain and the response exactly if that leaves room and does not come back to it |
| ResponseChain.RecentPastIsKept | proxy/responses_history.go:49-75 | in any case it is the recent end of the parent's chain and the response |
| ResponseChain.JoinTextParts | proxy/responses_history.go:111-122 | the text parts joined in order |
| ResponseChain.OutputToMessages | proxy/responses_history.go:77-109 | the messages of stored output items, in order |
| ResponseChain.OutputIsConserved | proxy/responses_history.go:77-109 | every character of a text part and every call reaches the messages in its place, empty messages losing nothing |
| ResponseChain.ExpandPreviousResponseHistory | proxy/responses_history.go:17-43 | the turns of the chain, oldest first |
| ResponseChain.HistoryGrows | proxy/responses_history.go:17-43 | a response's history is its parent's history and its own turn |
| ResponseChain.HistorySlides | proxy/responses_history.go:17-43 | at the limit the oldest turn falls out |
| ResponseChain.HistoryTells | proxy/responses_history.go:17-43 | a rebuilt conversation says, response by response, the instructions, what was asked and everything stored as said, and nothing else |
| AutoRoute.TierPromises | proxy/autoroute.go:71-137 | thinking or a huge prompt reaches the strong tier unless the message is trivial, and is never fast; a trivial message never raises the tier |
| AutoRoute.RuleDecides | proxy/autoroute.go:71-137 | under an operator's rule nothing else of the request counts, and its tier is the wanted one exactly unless the weights lean by half or more towards another tier |
| AutoRoute.ToolsetCountsOnce | proxy/autoroute.go:71-122 | a toolset counts once, and alone is fast |
| AutoRoute.TierIsMonotone | proxy/autoroute.go:71-137 | a heavier request or a stronger preference for quality never lowers the tier |
| AutoRoute.GetForModelByID | pool/account.go:441-471 | the first entry under an id, if it is ready for the model |
| AutoRoute.Candidates | proxy/autoroute.go:670-699 | exactly the pairs offered: listed, in the tier, not blacklisted, quarantined or tried, and ready |
| AutoRoute.OnlyFitsContext | proxy/autoroute.go:630-642 | exactly the candidates whose window holds the request, unknown windows included |
| AutoRoute.OnlyVision | proxy/autoroute.go:653-661 | exactly the candidates known to accept images |
| AutoRoute.WithoutSlow | proxy/autoroute.go:741-752 | exactly the candidates not marked slow |
| AutoRoute.OnlyPriority | proxy/autoroute.go:544-558 | exactly the free candidates of the highest weight from two up |
| AutoRoute.Order | proxy/autoroute.go:411-419 | all three tiers, nearest first, up before down |
| AutoRoute.SearchPass | proxy/autoroute.go:436-456 | one pass finds all fitting candidates of the nearest tier that has any, and sets aside the nearest non-empty tier |
| AutoRoute.Search | proxy/autoroute.go:423-462 | the best level there is, in its nearest tier, with all its candidates; nothing only if no tier has one |
| AutoRoute.Narrow | proxy/autoroute.go:463-475 | exactly the candidates that need not give way to faster ones or to free accounts of higher weight |
| AutoRoute.ExploreRate | proxy/autoroute.go:580-592 | the rate from the outcomes known |
| AutoRoute.ExplorationFades | proxy/autoroute.go:580-592 | it stays within the configured rate and is zero from twenty outcomes on |
| AutoRoute.ScoresAreUnit | proxy/autoroute.go:386-392 | with weights in [0, 1] every score is in [0, 1], whatever the draw |
| AutoRoute.ReliabilityRises | proxy/autoroute.go:386-392 | under the same noise more successes or fewer failures sample higher, strictly where nothing is clamped |
| AutoRoute.CheaperIsMoreAffordable | proxy/autoroute.go:609-619 | a lower price and more quota left are more affordable, strictly so for the price where the quota is not what binds; an unknown price counts as 2 |
| AutoRoute.QuickerIsFaster | proxy/autoroute.go:495-498 | lower latency scores strictly higher for speed, none at all as 1 and two seconds as a half |
| AutoRoute.NoWorseScoresNoLower | proxy/autoroute.go:490-499 | under the same noise a candidate no worse in any respect scores no lower, and a cheaper or quicker one higher |
| AutoRoute.Draw | proxy/autoroute.go:481-509 | exploring takes the drawn candidate, otherwise the first of the highest score wins; nobody exactly if no score is above -1 |
| AutoRoute.SomebodyIsDrawn | proxy/autoroute.go:482-509 | with weights in [0, 1] somebody is picked, with a score in [0, 1] |
| AutoRoute.AlwaysPicksIff | proxy/autoroute.go:481-509 | whatever the random numbers somebody is picked, exactly if the weights leave some candidate a factor above -1 or the router always explores |
| AutoRoute.UnitWeightsAlwaysPick | proxy/autoroute.go:481-509 | weights in [0, 1], as the admin API clamps them, leave one to every candidate |
| AutoRoute.UnclampedPicksNobody | proxy/autoroute.go:481-509 | a configuration with a cost weight of 4 and one routable candidate that is not picked |
| AutoRoute.Router.Push | proxy/autoroute.go:822-828 | the ring keeps the last 200 decisions |
| AutoRoute.Router.Resolve | proxy/autoroute.go:403-540 | answers if and only if some tier has a candidate (weights in [0, 1]), drawn from exactly the candidates that do not have to yield |
| AutoRoute.PickIsKept | proxy/autoroute.go:463-509 | the pick is slow only if all of its tier are, and of maximal weight when a free, non-slow account of weight two is there |
| AutoRoute.ChosenIsRoutable | proxy/autoroute.go:670-699 | the pick is never quarantined, blacklisted or already tried, and is ready |
| AutoRoute.NearestFittingTier | proxy/autoroute.go:435-462 | without images: the nearest tier with a fitting candidate, else the nearest with any |
| AutoRoute.ImagesAreSeen | proxy/autoroute.go:420-434 | a tier that sees the images and holds the request is never passed over for another |

## Left out

- HTTP serving, SSE byte framing, decoding of requests, logging, statistics and upstream calls; an attempt is its callbacks and its outcome.
- Login and token refresh, relays, egress, the admin API, the dashboard, configuration, and the JSON and SQL stores themselves. A JSON store that cannot read its metrics file starts over with an empty one; the model's store keeps its rows.
- Classification of errors: whether a token is bad or an attempt failed is given.
- Which account an attempt uses: the handlers' attempt lists stand for whatever the picker returned.
- Floating point: scores, credits and usage are reals, the 85% cap and the percentile ranks whole-number percentages, and a decision's score is not rounded.
- The half-life decay of the bandit's statistics, and the shape of its random noise.
- Wrap-around of counters at 2^64, and the replacement of invalid UTF-8: counters are unbounded, text is code points.
- Changes of limits, account lists or the clock's direction in the middle of a run; each call reads the clock once.
- Native Responses transports, and the stored response object beyond its text and tool uses.
- `GetNextExcluding` (pool/account.go:119) is the picker with a filter that accepts all and no model lists; it is not modelled a second time.
- Buckets, counters, builders and pending tool calls are values held in the slots and fields that the code keeps pointers in: sharing of one by two owners is not captured. The collector's buckets and dirty minutes are not locked; the two halves of a flush are the two sections the code holds its lock in.
- Deleting from a map while ranging over it: pruning builds the remaining entries anew. Ranging over a map visits its keys in any order here too.
- Flattening and canonicalising requests into cache blocks: a block is its canonical bytes, its token estimate, its TTL and whether it ends a message.
- The rows made of the breakdowns in a query (their average latency, which divides the time of all requests by the number that succeeded, and the top-20 and top-10 cut): whole breakdowns are returned. Sorting by requests is unstable there and its ties are arbitrary.
- Tier patterns, blacklist entries, prices, context windows, vision and free slots are given to the router as predicates; matching patterns against names is not modelled, nor is pinning a conversation to an account.
- Parsing stored input: `parseResponsesInput` is a parameter that may fail. Missing, expired and unreadable responses are all not stored, and the store does not change during a walk.
- ThinkingSplit.Splitter.ProcessText: lists its calls of the send function and the handler then makes them, because they do not touch the splitter's variables.
- ResponsesLaws.OneAccountPerAnswer: progress notices of failed attempts do reach the client, as in the code.
- MetricsCollector.Collector.Load: on a collector that has recorded nothing, as it is called once at startup.
- MetricsCollector.Collector.Query: from the second week of Unix time on, since negative minutes would be negative indices in Go.
- ResponsesItems.ListsAgreeIff: compares items by kind, text and tool use. Items carry no ids here: the code draws new ones for the completed list, and gives every message item of an attempt the same one (proxy/responses_handler.go:435).
- OpenAiLaws.NothingLost: when reasoning events claimed the attempt, the sends shown are not determined by the text alone, because events are sent at once and text is held back.
- KeyLimiter.Limiter.Release: a call for the empty id gives nothing back, as in the code; it is entered in the uses all the same.
