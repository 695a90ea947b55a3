# Verified model of the metering, pricing and streaming core

This project models the parts of the proxy whose correctness is hardest to see by reading one
function, and proves what they promise: the usage store's lock-free writer protocol, the SSE
engine, exact decimal pricing, the calendar and the report ledger, the model index, the cached
pricing source, the hook watchdog and the item-id stabilizer.

Every promise is stated over all inputs, all runs or all reachable states. Protocols are state
machines: one action is one atomic operation of one party, a run is any sequence of enabled
actions, and an invariant is proved of every reachable state. What a step does is held against a
trace of the run that looks only at the state before each action: what a call read, what the
database or the upstream answered, when a timer was due (the `Causes` files). Code that updates objects, buffers
or maps is a class or a method proved against an independent specification.

## What is in which file

| file | models |
|---|---|
| `UsageStore.dfy`, `UsageLedger.dfy`, `UsageCauses.dfy` | any number of `Record` calls, the writer, `StopAdmission` and any number of `Close` calls over shared counters, a bounded queue and a seal |
| `Pump.dfy`, `PumpRuns.dfy`, `PumpCauses.dfy` | the reader goroutine and the main loop of the SSE pump, two timers, cancellation and the client connection |
| `SseData.dfy` | line framing, `data:` fields as a parser and printer pair, `Reader.Read` |
| `Decimal.dfy`, `Spelling.dfy`, `Amounts.dfy`, `Rates.dfy`, `Usd.dfy` | canonical decimals, exact dollar amounts, rates in RFC 8259 (section 6) number grammar, half-up printing |
| `ContextRate.dfy`, `Tiers.dfy` | fast rates as digit-bounded exact quotients, context tiers |
| `Snapshots.dfy` | the projection of a price document: retained identities within a budget, one tariff per model |
| `Valuation.dfy` | the value of one Turn on each Surface |
| `Calendar.dfy` | local dates to UTC instants, and the buckets of a report window |
| `Capture.dfy` | what a report captures before it reads: the request's budget, matcher and snapshot, and the value of a stored Turn |
| `TurnWorth.dfy` | what a stored Turn costs, said of its stored counts |
| `Tallies.dfy`, `Ledger.dfy` | one-pass aggregation and conservation |
| `Wire.dfy`, `Client.dfy` | totals, counts and matches as texts on the wire, and the client's independent checks |
| `Reports.dfy` | one report from the stored tables to the client |
| `PeriodTotals.dfy` | terminal subtotals |
| `ModelMatch.dfy` | the model index against a policy stated on sets |
| `Cache.dfy`, `PricingSource.dfy`, `SourceCauses.dfy` | refreshed values, and the parsed-snapshot cache under concurrent calls and refreshes |
| `Watchdog.dfy`, `WatchdogRuns.dfy`, `WatchdogCauses.dfy` | hook invocations and timer callbacks over two mutexes |
| `ItemIds.dfy` | pinning of Responses item ids |

## Assumptions

- Instants are integer seconds. A zone is an offset function with 32-bit values and the contract of
  `ZoneBounds`: no end means the offset holds for ever, an end after the instant means it holds up
  to that end, an end that is not later means nothing. Dates run from 1970 to 9999, so the zero
  time never competes with a real instant.
- The pump's and the watchdog's clocks never go back. A stopped timer has drained its channel.
- The content hash is injective and the embedded price document is valid (`PricingSource`).
- Fewer than 2^64 `Record` calls are made in one process (`FinalLedgerExact`).
- A batch write and the cleanup of the database either succeed or fail; nothing else is known of them.
- A stored table is read in timestamp order and its counts are int64.
- JSON decoding after encoding is the identity; a price document is its decoded models, whose
  identities are distinct.
- Month and year edges are any strictly increasing grid of dates at most 366 days apart; day and
  week edges are computed.
- `big.Int`, `sort.Slice`, `sort.Search`, `bytes.Split`, `time.Parse` and `strings.Cut` do what they document.

## Where the code and an expectation part

- Final losses. "Every write succeeds, cleanup finishes before the snapshot and no call is in
  flight, so nothing is lost" fails when the closer's context ends while producers are still
  counted: `finish` returns without draining. `AbandonedWaitLosesTurn` is such a run and
  `CleanFinalLosses` gives the exact condition.
- Stall arbitration. "A read sampled at or before the stall tick is delivered" fails at the tick
  itself. `SampledAtTickLost` is such a run and `StallArbitration` says exactly which reads are lost.
- Watchdog. The comment that `finish` never waits on the state mutex while the logger is blocked
  (monitor.go:188-190) fails when the next crossing is claimed behind the record of an abandoned
  invocation: `FinishWaitsForLogger` is such a run, and `LoggerIsEarlier` with `WaitsOnlyForItsMutex`
  says that only a record of an earlier invocation can hold a hook up.
- Payload replacement. Data after replacement is the payload only when each line is placed where it
  reads back: `RoundTrip` gives the exact condition for every frame and payload.
- Item ids. The event that sets a pin passes through as it came, so an id that differs from the pin
  survives exactly when that event carries two different ids (`FirstEventPassesThrough`,
  `DifferentIdsSurvive`).

## Model

| member | source | states |
|---|---|---|
| UsageStore.StepKeeps | internal/usage/sqlitestore/store.go:152-275 | every operation of every party keeps the protocol invariant: counters equal the sets of calls they stand for, each accepted Turn is in exactly one place, outcomes are frozen after the seal |
| UsageLedger.OutcomesDisjoint | internal/usage/sqlitestore/store.go:152-170 | in every reachable state no call is counted under two outcomes: queue-full, late, committed and runtime-lost are pairwise disjoint sets of started calls |
| UsageLedger.FinalLedgerExact | internal/usage/sqlitestore/store.go:456-479 | none of the final unsigned subtractions goes below zero, and FinalFlushLosses is exactly the number of started calls with no outcome at the sample points |
| UsageLedger.BatchesBoundedAndDisjoint | internal/usage/sqlitestore/store.go:198-275 | every batch given to the database holds 1 to batchCapacity Turns, and no Turn is handed to two batches |
| UsageLedger.NoEnqueueAfterQuiescence | internal/usage/sqlitestore/store.go:251-275 | once finish has seen zero producers with admission closed, no continuation ever enqueues a Turn |
| UsageLedger.DrainTerminates | internal/usage/sqlitestore/store.go:251-275 | after quiescence the writer can take only boundedly many more steps, whatever other parties do |
| UsageLedger.DrainNeverBlocks | internal/usage/sqlitestore/store.go:251-282 | and until it has stopped some writer step is possible |
| UsageLedger.CleanFinalLosses | internal/usage/sqlitestore/store.go:431-479 | with no failed write, cleanup before the snapshot and no call in flight, the final losses are what the seal left behind: zero if and only if the producers were waited out or nothing was left |
| UsageLedger.AbandonedWaitLosesTurn | internal/usage/sqlitestore/store.go:431-442 | a run in which every write succeeds and nothing is in flight, yet one Turn is reported lost because the wait for producers was abandoned |
| UsageCauses.RecordOutcome | internal/usage/sqlitestore/store.go:152-170 | in every run a finished call is late exactly when it found admission closed, refused exactly when it found it open twice and met a full queue, and queued exactly when it met room |
| UsageCauses.CutoffIsFinal | internal/usage/sqlitestore/store.go:172-176 | admission is closed exactly when someone has stopped it, and a call that enters after that is counted as late in every continuation |
| UsageCauses.AnswersAreCounted | internal/usage/sqlitestore/store.go:237-275 | committed Turns are those of batches the database committed, runtime losses those of batches it refused while running; until the seal every settled answer is counted, and the refused final batch and what the drain drops are counted as neither |
| UsageCauses.TurnsKeepOrder | internal/usage/sqlitestore/store.go:198-275 | the Turns sent are, in order and each once, those of the batches given to the database, of the batch in hand, those the drain dropped and those in the queue |
| UsageCauses.CleanupIsReported | internal/usage/sqlitestore/store.go:178-196 | the report says cleanup succeeded exactly when it had by the sample, and a closer publishes only after cleanup or once its own context is done |
| UsageCauses.RecordNeverWaits | internal/usage/sqlitestore/store.go:149-170 | a call's next operation is always possible and brings its return nearer, whatever the others do |
| UsageCauses.CloseNeverStuck | internal/usage/sqlitestore/store.go:178-196 | while a Close call is unfinished it, its context or the call that publishes for it can go on |
| UsageCauses.CloseSteps | internal/usage/sqlitestore/store.go:178-196 | a Close call takes at most eight operations in any run |
| UsageCauses.WriterNeverBlocks | internal/usage/sqlitestore/store.go:198-282 | with a Turn in hand or queued, finalization requested, or inside finish, the writer can go on |
| Pump.HandshakeKept | internal/sse/pump.go:102-131 | at most one read is pending, in the slot or held by the loop, with its clock sample taken or under way; the channel closes before cancellation only once the failed read was taken |
| PumpRuns.StallArbitration | internal/sse/pump.go:217-313 | once a stall is declared at a tick, a read is lost to it if and only if it was unpublished when the loop looked or sampled after the tick; every lost read's sample is at the tick or later |
| PumpRuns.SampledAtTickLost | internal/sse/pump.go:217-239 | a run in which a read sampled exactly at the tick is lost without cancellation |
| PumpRuns.WireIsOrderly | internal/sse/pump.go:139-206 | over every run nothing follows a rendered error, so it happens at most once, and only frames follow a terminal frame, so neither a keepalive nor an error does |
| PumpRuns.OutcomeIsTrue | internal/sse/pump.go:226-275 | the outcome is never empty; Clean implies a terminal frame was written; Synthesized, Stall, UpstreamError and ShimError imply none was and that the error was rendered last |
| PumpRuns.FramesPassThrough | internal/sse/pump.go:334-354 | without a transformer the client gets the very frames of the accepted reads, the first ones published, in order: none twice, none skipped, none invented, and all of them unless it went away |
| PumpCauses.OutcomeHasCause | internal/sse/pump.go:226-350 | a failed write is always and only, with a canceled context, the client's end; ShimError means the transformer panicked, Stall that one was declared, Synthesized that the last accepted read was the end of the body, UpstreamError that it was a read error; Clean replaces each of them exactly once a terminal frame was written |
| PumpCauses.TransformerIsBetween | internal/sse/pump.go:334-354 | a transformer is called once for every accepted frame, in order, and the client gets exactly what it gave back, in order; a first part of both when the client went away |
| PumpCauses.TimersAreTrue | internal/sse/pump.go:217-313 | a stall is declared only after the idle timeout since the loop last took up waiting, a keepalive written only after its interval without a write, and while the loop selects both timers run and end exactly there |
| PumpCauses.StallIsCalledFor | internal/sse/pump.go:159-365 | a stall is declared exactly when and as the ticks and samples call for it: at a tick that finds no read waiting, or for a read sampled after a tick the loop knows of; nothing is read after a failed read; the client got exactly what was written, and no keepalive tick passes in silence |
| PumpCauses.TimersFire | internal/sse/pump.go:65-97 | a timer can fire from its deadline on and not before, and its tick is the time it fires |
| PumpCauses.CancelIsFinal | internal/sse/pump.go:184-351 | once the context is canceled, unless the loop is already rendering the end, no error and nothing more of the transformer reaches the client, and the outcome is the client's or clean |
| PumpCauses.LoopGoes | internal/sse/pump.go:207-365 | the loop waits only for its channels: a waiting read, a fired timer or a canceled context lets it go on, and everywhere else it can always go on |
| PumpCauses.RoundEnds | internal/sse/pump.go:207-365 | every round of the loop ends: each step between two selects brings it nearer to the next one or to its return, or writes one of the frames it is writing |
| PumpCauses.ReaderGoes | internal/sse/pump.go:112-131 | the reader waits only for the upstream, for room in the slot and for its sample to be taken |
| PumpCauses.CanceledLoopEnds | internal/sse/pump.go:207-365 | once canceled the loop can go on until it has returned, and every step brings its return nearer |
| PumpRuns.JoinEnds | internal/sse/pump.go:132-137 | after the loop has returned and canceled, the reader waits only for its upstream read and each of its steps brings its exit nearer |
| SseData.FieldNames | internal/sse/data.go:63-67 | the two prefixes spell data: and event: in ASCII |
| SseData.LinesWell | internal/sse/data.go:47-60 | splitting into lines loses nothing and leaves LF only at line ends |
| SseData.ParseData | internal/sse/data.go:44-85 | the scanning loop returns the joined values of exactly the data lines, and where each lies |
| SseData.ReplaceData | internal/sse/data.go:87-119 | splicing the replacements gives the text of the rewritten lines, or refuses exactly when an expansion has no line ending to repeat |
| SseData.FrameWithData | internal/sse/data.go:21-35 | refuses without data fields or a needed line ending and then returns the original bytes; otherwise the rewritten frame |
| SseData.PlacedValue | internal/sse/data.go:54-78 | a value written after a prefix and before an ending reads back unchanged if and only if it neither starts with the optional space nor ends in a CR that joins the ending |
| SseData.RoundTrip | internal/sse/data.go:14-35 | Data after WithData is the payload plus one LF per surplus field if and only if every payload line is placed faithfully |
| SseData.PlainPayloads | internal/sse/data.go:14-20 | it is, for frames of LF-ended lines and payload lines that neither start with a space nor end in a CR |
| SseData.OthersKept | internal/sse/data.go:14-20 | every line that is not a data field survives a rewrite, in order |
| SseData.OnlyValuesChange | internal/sse/data.go:14-20 | every byte outside data values is unchanged, also in an expansion: the rewritten text is the original with each field's value replaced by its payload line, by nothing when surplus, and the last one by the remaining lines with its own ending and prefix between them |
| SseData.LinesKept | internal/sse/data.go:87-119 | where each line goes for every payload: lines before the last field keep place, prefix and ending, an expansion spreads out in the last field's place, what follows moves down unchanged |
| SseData.RereadsAsOne | internal/sse/reader.go:35-77 | rewriting the payload of a frame leaves exactly one frame with the same event value |
| SseData.EventType | internal/sse/reader.go:59-77 | the scan returns the value of the last event field |
| SseData.Reader.Read | internal/sse/reader.go:35-57 | a read takes the shortest complete frame ahead byte for byte, names it by its event or its fallback and counts the fallback, or finds no blank line left |
| SseData.FrameUnique | internal/sse/reader.go:35-57 | a byte stream determines its first frame and what follows it |
| Decimal.DigitCount | internal/usage/pricing/decimal.go:8-21 | a number has at most n decimal digits if and only if it is below 10^n |
| Spelling.SpelledPrints | internal/usage/pricing/decimal.go:8-21 | printing the decimal that a canonical spelling denotes gives that spelling |
| Spelling.CanonicalUnique | internal/usage/pricing/amount.go:88-101 | canonical decimals of equal value are identical |
| Spelling.FormatInjective | internal/usage/pricing/decimal.go:8-21 | different canonical decimals print differently |
| Amounts.NewAmount | internal/usage/pricing/amount.go:88-101 | stripping zeros yields the one canonical decimal of that value, or overflow exactly beyond 24 fractional digits or 128 bytes |
| Amounts.Add | internal/usage/pricing/amount.go:65-79 | addition is exact: the amount worth the sum, or overflow exactly when that is not representable |
| Amounts.SumIsExact | internal/usage/pricing/amount.go:65-79 | adding a list one by one gives the exact sum |
| Amounts.SumOrderIndependent | internal/usage/pricing/amount.go:65-79 | two orders of summation that stay representable give the identical amount |
| Amounts.ParseAmount | internal/usage/pricing/amount.go:22-50 | accepts exactly the canonical spellings within the bounds, and is the exact inverse of String |
| Rates.BoundsAre | internal/usage/pricing/rate.go:96-110 | the digit bounds are bounds on the value: below ten to the eighteenth, at most eighteen decimals |
| Rates.ScanSound | internal/usage/pricing/rate.go:18-93 | what is read is a JSON number spelled by exactly the text |
| Rates.ScanComplete | internal/usage/pricing/rate.go:18-93 | every JSON number is read |
| Rates.ParseRate | internal/usage/pricing/rate.go:18-110 | the byte loop accepts a text if and only if it is a nonnegative JSON number within the digit bounds, and gives its canonical rate |
| Rates.ParseIsGrammar | internal/usage/pricing/rate.go:18-110 | acceptance stated on the grammar: some number spells the text and its rate is in bounds |
| Rates.RateExact | internal/usage/pricing/rate.go:95-110 | a rate has exactly the value of the number it was parsed from |
| Rates.SameValueSameRate | internal/usage/pricing/rate.go:95-110 | accepted spellings of equal value parse to the same rate |
| Rates.RateRoundTrip | internal/usage/pricing/rate.go:113-115 | parsing a printed rate gives the rate back |
| ContextRate.RemoveFactor | internal/usage/pricing/mode_context.go:65-77 | terminates on positive values with the exact multiplicity of the factor and a rest it does not divide |
| ContextRate.Quotient | internal/usage/pricing/mode_context.go:30-58 | returns a rate if and only if the fraction is a decimal of at most 18 integer and 18 fractional digits, and then that quotient |
| ContextRate.DeriveFastContextRate | internal/usage/pricing/mode_context.go:17-59 | a rate exactly when all operands are present, the base is not zero and fast times context over base is so representable; it equals the quotient at its least scale |
| Tiers.ParseTiers | internal/usage/pricing/snapshot.go:330-383 | refused exactly on duplicate thresholds; otherwise the same tiers in strictly ascending order, the legacy row standing in only when there are none |
| Tiers.SortedUnique | internal/usage/pricing/snapshot.go:366-376 | the sorted list of given tiers is the only one |
| Tiers.DeriveFastContextRates | internal/usage/pricing/mode_context.go:8-15 | each category is the exact premium of its own operands; no category lends an operand to another |
| Tiers.FastSchedule | internal/usage/pricing/snapshot.go:169-180 | the fast schedule keeps the normal thresholds, with exact premiums in each tier |
| Tiers.FastFollowsNormal | internal/usage/pricing/snapshot.go:67-75 | for every input the fast rates selected are the premiums on the normal rates selected |
| Snapshots.ParseModel | internal/usage/pricing/snapshot.go:154-186 | a model's tariff: its own cost rows sorted, and for OpenAI models with an accepted Fast declaration exact premiums on the same thresholds; refused exactly on duplicate thresholds |
| Snapshots.Project | internal/usage/pricing/snapshot.go:91-202 | succeeds exactly when the limit is not negative and covers all identities and every model is sound; then keeps exactly the identities, and a tariff for exactly the models with a cost or Fast declaration, each its own and searchable; refused for the limit exactly when the walk of the document passes it before an invalid name |
| Snapshots.WalkIdentities | internal/usage/pricing/snapshot.go:233-281 | the walk before any model is read refuses at the first identity past the limit or the first invalid name, and passes exactly documents within the limit |
| Snapshots.ProjectionSays | internal/usage/pricing/snapshot.go:154-230 | a retained model has a tariff exactly when it has a cost object or is an OpenAI model with a Fast declaration, a fast schedule only in the latter case, and rates from nowhere else; a name of 1 to 1024 bytes and distinct thresholds are what a model needs |
| Snapshots.ProjectionUnique | internal/usage/pricing/snapshot.go:91-202 | a document has one projection: the parsed tariffs, premiums included, are determined by its models |
| Snapshots.BytesUnordered | internal/usage/pricing/snapshot.go:132-153 | the identity charge does not depend on the order in which models are walked |
| Usd.IncrementDecimal | internal/usage/reportcli/command.go:472-482 | the in-place carry adds exactly one, lengthening the text only on an all-nines input |
| Usd.KeptDigits | internal/usage/reportcli/command.go:462-466 | the kept digits and the rounding digit give floor(1000 x + 1/2) |
| Usd.FormatUsd | internal/usage/reportcli/command.go:462-470 | prints floor(1000 x + 1/2)/1000 with three decimals and no redundant leading zero, for every canonical amount |
| Valuation.ForTokens | internal/usage/pricing/amount.go:53-62 | exact for every rate and every nonnegative int64 count, with no overflow |
| Valuation.SumPricedLines | internal/usage/pricing/contribution.go:33-49 | the exact sum of tokens times rate, never touching an absent rate; an error exactly on a negative count, and no overflow up to four lines |
| Valuation.OpenAIExact | internal/usage/pricing/openai.go:36-64 | priced if and only if the needed rates and counts are present and cache counts fit in the input; then exactly the rational sum |
| Valuation.AnthropicExact | internal/usage/pricing/anthropic.go:69-95 | priced if and only if the needed rates and counts are present and not negative; cache counts are additive |
| Valuation.OpenAIInputChargedOnce | internal/usage/pricing/openai.go:36-64 | at one input-side rate the cache split does not change the charge |
| Valuation.SelectRates | internal/usage/pricing/snapshot.go:67-75 | the binary search returns the vector the schedule defines |
| Valuation.SelectsGreatestBelow | internal/usage/pricing/snapshot.go:67-75 | that is the vector of the greatest threshold strictly below the input, or the base vector |
| Valuation.AnthropicCompleteInput | internal/usage/pricing/anthropic.go:23-41 | the checked uint64 sum, or why it is unknown |
| Valuation.MissingInEveryVector | internal/usage/pricing/anthropic.go:43-53 | true exactly when every vector lacks a needed rate |
| Valuation.TariffAnthropic | internal/usage/pricing/anthropic.go:9-21 | the vector of the complete input decides; an unknown input is missing_rate only if no vector has the rates |
| Valuation.ReportNeverOverflows | internal/usage/report/read.go:436-453 | adding a contribution to an amount of fewer than MaxRows others never overflows |
| Calendar.StartUnique | internal/usage/report/calendar.go:182-226 | a date has one start, so the memo and the interval list cannot change an answer |
| Calendar.RegularStart | internal/usage/report/calendar.go:182-226 | where offsets stay less than a day apart no date is skipped: each has a start, within a day of its nominal midnight, and it is the first instant to show that date or a later one |
| Calendar.RegularIsTidy | internal/usage/report/calendar.go:119-124 | and edges ascend with their dates, so the calendar's non-monotonic refusals cannot occur there |
| Calendar.DateResolver.NextInterval | internal/usage/report/calendar.go:239-278 | an interval it returns has one offset throughout, starts at the cursor and makes progress, also with stale bounds; it is refused only for a bound start that lies ahead, for the step budget or for the context |
| Calendar.DateResolver.Start | internal/usage/report/calendar.go:182-226 | the least instant that shows the date, over all instants and all 32-bit offsets, or nothing exactly when no instant does, whatever was asked before; refused only for a bound start ahead, a budget or the context, and never where a survey of the zone leaves the budget room |
| Calendar.DateResolver.Edge | internal/usage/report/calendar.go:168-180 | the start of the first existing date at or after the given one, at most MaxDates on; refused only like a start, or when none of those dates exists |
| Calendar.DayLaws | internal/usage/report/calendar.go:68-68 | the day grid meets the laws asked of a period, every date being an edge of its own |
| Calendar.WeekLaws | internal/usage/report/calendar.go:69-72 | week edges are the Mondays at or before a date, seven days apart, counted from Monday 5 January 1970 |
| Calendar.FillBuckets | internal/usage/report/calendar.go:100-142 | buckets laid end to end over the window, dated in order, at most MaxDates of them, so the MaxBuckets guard cannot fire; in an honest zone with ascending edges it is refused only for a budget or the context |
| Calendar.BuildCalendar | internal/usage/report/calendar.go:39-143 | a window it returns is partitioned by buckets that clip real local-date edges, in any zone and period; it is refused only for what is wrong with the dates, the zone, the budgets or the context, so every valid range in an honest zone whose offsets stay less than a day apart and whose bounds fit the budget is answered |
| Calendar.FixedIsRegular | internal/usage/report/calendar.go:39-143 | a fixed offset of at most a day is such a zone, for every window |
| Calendar.DayCalendar | internal/usage/report/calendar.go:68-143 | by days every bucket is one date, in any zone, and where offsets stay less than a day apart every date has one |
| Calendar.BucketUnique | internal/usage/report/read.go:290-297 | a timestamp lies in at most one bucket |
| Calendar.Advance | internal/usage/report/read.go:290-297 | the forward-only pointer finds the bucket of every selected timestamp; "outside report intervals" cannot happen |
| Capture.ReadBudget.Intern | internal/usage/report/read.go:271-278 | each distinct model is charged its bytes once and the limit is never exceeded |
| Capture.CapturePricing | internal/usage/report/report.go:266-299 | succeeds exactly when the budget covers the snapshot's identities and the matcher's keys, charges exactly both, and captures a matcher over the recognized identities |
| Capture.CapturedPricing.Model | internal/usage/report/report.go:301-331 | each model gets the resolution of the matching policy on the captured snapshot and the matched identity's tariff, remembered or not |
| Capture.TurnValueOf | internal/usage/report/read.go:377-402 | only matched models price a Turn, and every priced Turn is within the bound that keeps a report's sums representable |
| TurnWorth.UsableRow | internal/usage/projection.go:92-134 | a stored row is usable exactly when its model was read whole, input and output are reported and no reported count is negative |
| TurnWorth.AnthropicTurn | internal/usage/projection.go:117-125 | of an Anthropic Turn's stored counts the first two are input and output, the third cache creation and the fourth cache read, all additive: the Turn costs exactly the four products at the rates for the whole input, or is excluded for a missing rate exactly when a needed one is absent |
| TurnWorth.AnthropicExcluded | internal/usage/pricing/anthropic.go:9-68 | without both cache counts, or with a whole input beyond uint64 under tiers, it is excluded for a rate exactly when no vector has the rates, else for the missing or inconsistent usage |
| TurnWorth.OpenAITurn | internal/usage/projection.go:127-134 | of an OpenAI Turn's stored counts the third and fourth are cache read and cache write inside the input: it costs exactly the four products in the schedule of its service tier, or is excluded for a rate, for usage or for an inconsistency exactly in the stated cases |
| TurnWorth.FastIsNamed | internal/usage/pricing/modes.go:126-128 | the fast schedule is for the service tiers fast and priority, each letter in either case, and for no other |
| TurnWorth.VectorIs | internal/usage/pricing/snapshot.go:67-75 | the vector selected for an input is the one of the greatest threshold strictly below it, or the base, and there always is one |
| Capture.MatchedIsRetained | internal/usage/report/report.go:301-331 | a match is always one of the snapshot's own identities, from an original provider |
| Tallies.PartsAddUp | internal/usage/report/report.go:42-67 | in every measure the parts add up to the whole when each Turn belongs to exactly one part |
| Tallies.TurnsSplit | internal/usage/report/report.go:42-49 | priced plus the five unpriced counts equals Turns |
| Ledger.AddCost | internal/usage/report/read.go:411-454 | keeps the coverage rules, adds exactly, and its overflow branch is dead |
| Ledger.AddTurn | internal/usage/report/read.go:312-342 | one Turn adds exactly its weight in every measure, or some exact sum leaves int64 |
| Ledger.EmptyTotal | internal/usage/report/report.go:357-368 | an empty total is well-formed and zero in every measure |
| Ledger.CheckRow | internal/usage/report/read.go:245-280 | too large exactly on a model over the length limit or a usable Turn whose new model the budget cannot hold, corrupt exactly on a row of bounded length that is no usable Turn; interns exactly the models that pass |
| Ledger.AddEntry | internal/usage/report/read.go:298-342 | the row, model and section totals all stay the exact totals of their scopes |
| Ledger.SortKeys | internal/usage/report/read.go:364-368 | rows by date and model, models by name, strictly ascending, each key once |
| Ledger.ReadSection | internal/usage/report/read.go:188-370 | a section is returned exactly when the selected rows are usable, exhaust no budget and sum within int64; it is their exact ledger in every total and key, each model carries its resolution, and the budget has spent exactly a row each, each new model's bytes and each new group; a refusal comes at the first row that exhausts a budget, and the other failures have their stated cause |
| Ledger.RowsMakeModels | internal/usage/report/read.go:314-362 | rows summed per model give the model totals in Turns, sums, coverage, cost counters and exact amount |
| Ledger.RowsMakeTotal | internal/usage/report/read.go:314-362 | all rows summed give the section total |
| Ledger.ModelsMakeTotal | internal/usage/report/read.go:314-362 | all models summed give the section total |
| Ledger.TotalDetermined | internal/usage/report/report.go:51-67 | well-formed totals equal in every measure are identical, absent values and the amount included |
| Wire.MatchTravels | internal/usage/reporthttp/encode.go:107-112 | every resolution to a retained identity is accepted, comes back as it was and tells what it was |
| Wire.AcceptedMeans | internal/usage/reporthttp/validate.go:324-354 | an accepted match tells of a resolution between valid names, or of the alias method, which no resolution has |
| Wire.DecodeCount | internal/usage/reporthttp/validate.go:183-200 | exactly the canonical decimals of int64 counts |
| Wire.TotalTravels | internal/usage/reporthttp/encode.go:162-196 | reading an encoded total gives the total, exact amount included, and without costs when pricing is absent |
| Client.DecodeCost | internal/usage/reporthttp/validate.go:292-322 | returns the cost exactly when every text reads and the cost balances, else nothing |
| Client.DecodeTotal | internal/usage/reporthttp/validate.go:226-262 | returns the total exactly when every text reads, every coverage rule holds, a section total carries no match, and costs are there exactly with pricing |
| Client.DecodeSection | internal/usage/reporthttp/validate.go:94-125 | accepts exactly ordered, dated, filtered, matched and balanced sections, and holds what they say |
| Client.AcceptBuckets | internal/usage/reporthttp/validate.go:62-82 | the bucket loop accepts exactly buckets with distinct dates laid end to end over the window, and knows their dates |
| Client.SectionPasses | internal/usage/reporthttp/validate.go:94-125 | every exact section passes the client's checks and is decoded to what was built |
| Client.WindowPasses | internal/usage/reporthttp/validate.go:62-82 | every calendar window passes the client's bucket checks |
| Client.ReportPasses | internal/usage/reporthttp/validate.go:83-127 | whatever readSection returns for a calendar window, the client accepts and decodes to exactly that, with pricing or without |
| Client.SaysOne | internal/usage/reporthttp/validate.go:94-125 | what a section says determines what the client holds |
| Reports.SelectIs | internal/usage/report/read.go:204-211 | the query hands over exactly the rows of the window and model, each as often as it is stored, in order |
| Reports.Query | internal/usage/report/report.go:203-248 | an answered report holds the exact ledgers of exactly the wanted stored Turns for exactly the chosen Surfaces, over a partition of the asked dates, within every budget shared by the captured pricing and both sections, and the client can only decode it to itself; a query is refused only for a bad filter, for dates without a window, for pricing the budget does not cover, or for a named cause in the rows of a named Surface, and is answered when none holds |
| PeriodTotals.PeriodTotal | internal/usage/reportcli/command.go:236-290 | the subtotal is exact in every measure, the measures of cost only when they are included, and fails only when a sum leaves its range |
| PeriodTotals.PeriodIsExact | internal/usage/reportcli/command.go:187-240 | a group's subtotal is the exact total of that date's Turns |
| PeriodTotals.PeriodNeverOverflows | internal/usage/reportcli/command.go:292-298 | over a section the daemon built no subtotal overflows |
| ModelMatch.Normalize | internal/usage/modelmatch/matcher.go:225-240 | the in-place rewriting equals rewriting all bytes at once |
| ModelMatch.NormalIdempotent | internal/usage/modelmatch/matcher.go:225-240 | normalizing twice changes nothing |
| ModelMatch.CheckFast | internal/usage/modelmatch/matcher.go:277-293 | the byte loop removes "-fast" in any case and nothing else |
| ModelMatch.SuffixesDisjoint | internal/usage/modelmatch/matcher.go:257-293 | no name ends in both kinds of suffix, so each number of removals has one stem |
| ModelMatch.DateComesOff | internal/usage/modelmatch/matcher.go:257-275 | exactly a dash and a valid date in either layout come off the end of a name |
| ModelMatch.DatesAreWritten | internal/usage/modelmatch/matcher.go:264-275 | what comes off as a date is exactly a day of the years 1 to 9999 written in eight digits, or in ten characters with dashes |
| ModelMatch.GregorianYears | internal/usage/modelmatch/matcher.go:268-271 | the dates are those of the Gregorian calendar: 365 days or 366 in a leap year, 97 leap years in four hundred, months alternating save February |
| ModelMatch.DatedNames | internal/usage/modelmatch/matcher.go:257-293 | a name has a date exactly when one ends it, or all of it but a final "-fast" in any case |
| ModelMatch.KeyInjective | internal/usage/modelmatch/matcher.go:221-223 | a lookup key determines its provider and model |
| ModelMatch.ScopeIs | internal/usage/modelmatch/matcher.go:295-303 | only a recognized provider in front of a slash is a scope; every other name is taken whole |
| ModelMatch.Matcher.AddSelection | internal/usage/modelmatch/matcher.go:190-205 | the index keeps standing for the sets of identities filed under each key, each key charged once |
| ModelMatch.New | internal/usage/modelmatch/matcher.go:74-120 | succeeds exactly when the limit is not negative and covers the distinct keys' bytes; retains exactly those |
| ModelMatch.ResolveIsPolicy | internal/usage/modelmatch/matcher.go:132-217 | resolution is the policy on sets: the first stage that finds anything decides, one identity matches, several are ambiguous |
| ModelMatch.OrderIndependent | internal/usage/modelmatch/matcher.go:74-120 | answers and retained bytes depend only on the set of candidates |
| ModelMatch.SelfResolves | internal/usage/modelmatch/matcher.go:132-136 | every indexed identity resolves from provider/model to itself by the exact method |
| Cache.AttemptKeeps | internal/cache/value.go:178-248 | fallback is reported exactly while the floor's hash is current; what is served has the current hash and is the floor or validated |
| Cache.RunsKeep | internal/cache/value.go:178-293 | the same after any number of attempts |
| Cache.ServesWhatItFetched | internal/cache/value.go:197-248 | the served value changes only to freshly fetched content |
| Cache.FailureIsInvisible | internal/cache/value.go:255-268 | a failed attempt and an unchanged peek alter attempt fields only |
| Cache.AttemptOutcome | internal/cache/value.go:178-248 | exactly when an attempt fails, and what a successful fetch records |
| Cache.Value.TryOnce | internal/cache/value.go:178-248 | the code makes exactly the modelled step |
| Cache.Value.Current | internal/cache/value.go:142-169 | the value served has the current hash, is the floor exactly when the fallback is reported and else passed validation; version, last success, last attempt and its result come with it |
| Cache.FreshnessOfRuns | internal/cache/value.go:142-248 | after any number of attempts the last attempt's time is the latest one's, and last success, version and hash all belong to the latest attempt that fetched accepted content, or to the floor without one |
| PricingSource.HitIsParsing | internal/usage/pricing/source.go:149-154 | a hit answers what parsing the captured bytes under the caller's limit would |
| PricingSource.CurrentIsParsing | internal/usage/pricing/source.go:134-168 | in every interleaving of calls and refreshes a finished call with a live context returns what parsing its captured bytes under its own limit gives, and those bytes are valid |
| PricingSource.CurrentIsProjecting | internal/usage/pricing/source.go:134-168 | with the projection for the parser, a finished call with a live context returns the one projection of its captured document when its limit covers the identities, else the limit's refusal, and nothing else |
| PricingSource.GateIsExclusive | internal/usage/pricing/source.go:140-148 | one call at a time is past the gate, and it can always step |
| SourceCauses.CallsAreAsked | internal/usage/pricing/source.go:134-148 | after any run the calls are those that began, each on the document and version served at its beginning and under its own limit; a context that ends before the gate or before the look ends the call as canceled, without parsing |
| SourceCauses.MovesLower | internal/usage/pricing/source.go:134-168 | a call takes at most six steps, and nothing sets it back |
| SourceCauses.CallsNeverStick | internal/usage/pricing/source.go:140-148 | an unfinished call can step or the gate's holder can, and a canceled one always can |
| SourceCauses.ParsedOnce | internal/usage/pricing/source.go:149-168 | while one version is served its document is parsed for an answer once: calls that begin after that answer never go past the look |
| Watchdog.LocksKept | internal/shim/monitor.go:158-232 | who holds each mutex, in every interleaving |
| WatchdogRuns.AtMostOneEach | internal/shim/monitor.go:131-232 | each invocation logs at most one crossing and at most one ending, and no ending without its crossing |
| WatchdogRuns.LogIsOrderly | internal/shim/monitor.go:173-222 | every record is at or past the threshold, carries its own invocation's name, and an ending stands after its own crossing |
| WatchdogRuns.RecorderCountsCrossings | internal/shim/monitor.go:196-201 | recorder increments equal the logged crossings, save one whose publisher holds the publication mutex to count it |
| WatchdogCauses.EndingIsLogged | internal/shim/monitor.go:203-232 | every crossed invocation whose hook returned or panicked logs exactly one ending with that state and the time it took; one that had not crossed, was abandoned or never monitored logs none |
| WatchdogCauses.CrossingIsLogged | internal/shim/monitor.go:173-201 | every callback that finds an open invocation past its deadline and unclaimed leads to its one logged crossing; an invocation no callback found so has none |
| WatchdogCauses.MonitoredUnlessOpen | internal/shim/monitor.go:158-171 | an invocation is monitored exactly when no other is open as it begins |
| WatchdogCauses.WaitsOnlyForItsMutex | internal/shim/monitor.go:158-232 | the state sections wait for the state mutex alone, a claimed crossing and an ending for the publication mutex alone, and writing a record for neither |
| WatchdogCauses.LoggerIsEarlier | internal/shim/monitor.go:173-232 | when the open invocation has to wait for the state mutex while a record is written, that record is of an earlier invocation whose hook is over, in every reachable state |
| WatchdogCauses.FinishWaitsForLogger | internal/shim/monitor.go:173-232 | a reachable state in which a hook cannot finish while the record of an abandoned invocation is being written |
| WatchdogCauses.EveryoneIsThere | internal/shim/monitor.go:131-171 | after any run the threads are exactly the invocations and callbacks that came, each under its own name, and the clock shows the time that passed |
| WatchdogRuns.NeverStuck | internal/shim/monitor.go:103-112 | the two mutexes never deadlock: while a thread is unfinished some thread can step |
| WatchdogRuns.StepsPerThread | internal/shim/monitor.go:131-232 | in any run a thread takes at most four steps |
| WatchdogRuns.EveryoneEnds | internal/shim/monitor.go:131-232 | once no thread enters at most four steps per thread remain, and a run that can go no further has left every invocation and callback over |
| ItemIds.Stabilizer.RewritePayload | internal/shim/responses_item_id.go:68-98 | the code makes exactly the modelled rewrite and pin update |
| ItemIds.Stabilizer.RewritePerItem | internal/shim/responses_item_id.go:100-145 | one item's ids, transactionally, with exactly when something changed and when the item could not be read |
| ItemIds.Stabilizer.RewriteWhole | internal/shim/responses_item_id.go:147-206 | an envelope's items, validated before any is changed, with exactly when something changed and when they could not be read |
| ItemIds.EventIsPinned | internal/shim/responses_item_id.go:131-145 | in an event for a pinned index its own id and its item's become the pin where they are there, and nothing else changes |
| ItemIds.EventSetsPin | internal/shim/responses_item_id.go:118-129 | in an event for an index without a pin nothing changes and its item's id, or else its own, becomes the pin |
| ItemIds.EnvelopeIsPinned | internal/shim/responses_item_id.go:147-206 | in an envelope the id of every listed item whose place is pinned becomes the pin; the others and everything around them stay |
| ItemIds.UncertainPasses | internal/shim/responses_item_id.go:68-98 | whatever cannot be read with confidence passes through as it came |
| ItemIds.TerminalsClear | internal/shim/responses_item_id.go:208-215 | the four turn terminals clear the pins and no other event drops one |
| ItemIds.SecondAlwaysIdle | internal/shim/responses_item_id.go:66-98 | over any sequence of payloads a second stabilizer changes nothing and keeps equal pins |
| ItemIds.PinnedIdsOnly | internal/shim/responses_item_id.go:100-206 | after the step a pinned index carries only its pin, and any other index is passed through |
| ItemIds.WrittenIdsArrived | internal/shim/responses_item_id.go:118-145 | the one id a payload carries for a pinned index after the step, written or there already, arrived earlier in the same turn for that index; an id that was not there can only be that one |
| ItemIds.PinsOfATurn | internal/shim/responses_item_id.go:91-93 | pins never change within a turn and every turn terminal clears them, however malformed its payload |
| ItemIds.OnlyIdsChange | internal/shim/responses_item_id.go:131-206 | nothing but existing ids is changed, and no id is minted |
| ItemIds.FirstEventPassesThrough | internal/shim/responses_item_id.go:118-129 | every event for an index without a pin passes through as it came, and unless it ends the turn its first id becomes the pin |
| ItemIds.DifferentIdsSurvive | internal/shim/responses_item_id.go:118-129 | an id that differs from the pin survives that event exactly when its two ids are present and different |
| ItemIds.DifferentIdsOccur | internal/shim/responses_item_id.go:118-145 | such an event, and the next one for its index, whose id is rewritten |

## Left out

- SQLite, its schema, migrations, DSNs and busy timeouts: a write succeeds or fails, a query yields rows.
- HTTP, WebSocket, TLS, login and signal plumbing, logging content, counters and configuration.
- The text of dates and instants, the default month of a query, and timezone name validation.
- Month and year edges as Gregorian arithmetic: any increasing grid stands for them.
- Cancellation inside `readSection` and `New` of the matcher, which only ends them early with an error.
- The in-place sharing of totals through pointers in `readSection`: the maps hold values that are replaced.
- JSON tokens, duplicate members and Unicode validity of documents and reports; a price document either decodes or not.
- The order of a snapshot's identities: nothing depends on it (`ModelMatch.OrderIndependent`, `Snapshots.BytesUnordered`).
- Parsing an accepted Fast declaration, and row fields other than the four charged rates.
- The fallback type of a frame is a function of its payload, standing for reading a JSON member.
- The encoder's 8 MiB limit, which only refuses a report.
- Client.DecodeSection: the report's own members (schema version, scope, collection, the echo of the query, pricing provenance) are not decoded; each is one comparison with a constant or with the query.
- Client.DecodeTotal: a required JSON member that is missing is not told apart from one that does not read; both refuse.
- PumpCauses.TransformerIsBetween: what a transformer makes of a frame is arbitrary.
- Calendar.BuildCalendar: where offsets lie a day or more apart, a refusal for a budget is tied to the budgets only at `DateResolver.Start` and `DateResolver.Edge`, not to the zone.
- UsageLedger.FinalLedgerExact: assumes fewer than 2^64 calls, as the counters are 64-bit.
- WatchdogRuns.EveryoneEnds: assumes that hooks, logging and the recorder return; fairness of the scheduler is not modelled.
