# A verified model of the marketplace's stateful core

The marketplace is a monorepo of small services. Most of its code is plumbing, but eight of its components carry state
or arithmetic whose promises are about whole runs. This project models those components in Dafny and proves what they
promise; where a promise does not hold for all inputs, it proves exactly when it does.

| component | modules |
|---|---|
| money: mortgage amortisation and the developer instalment plan | `Rounding`, `Calendar`, `Grouping`, `Sorting`, `Pricing`, `Amortisation`, `AmortisationAccuracy`, `Mortgage`, `InstalmentPlan` |
| document chunking and the offline token counter | `Text`, `Lines`, `OverlapPlanner`, `Chunking` (Chunker.dfy), `HeadingPaths`, `ChunkerGuarantees`, `DocumentWords`, `TokenEstimate`, `ChunkTokens` |
| rate limiting in Redis and in process | `SlidingWindow`, `LocalWindow` |
| zero-downtime reindexing of the search index | `Decimal`, `IndexNames`, `IndexLifecycle`, `ReindexProtocol` |
| the chat agent: graph, fallback executor, event stream, tools | `ToolPlanning`, `AgentGraph`, `AgentStream`, `AgentTurns` |
| reciprocal rank fusion, hybrid search, reranking | `RankFusion`, `HybridSearch` |
| the ingestion pipeline | `Ingestion`, `IngestionGuarantees` |
| grouped digits, printed and read back | `DigitGrouping` |

`Outcomes`, `Sets` and `Selections` hold the shared `Option` and `Result` datatypes, a fact about finite sets, and what
filtering a list means. `dafny verify dfyconfig.toml` checks everything.

## How the model is built

Code that changes state step by step is a method with loops, or a class with `modifies` clauses, proved against a
function; the properties are lemmas about that function. Where concurrency or crashes matter (`SlidingWindow`,
`ReindexProtocol`), the component is a state machine over its atomic steps, and the theorems range over every run.

- Money is an integer number of piastres; prices, percentages and rates are exact reals. Growth is exact exponentiation.
- Models, embedders, rerankers, chunk counters, populators and tools are arbitrary functions or arbitrary replies; where
  the code catches an exception of theirs, raising is one of the replies. Every node of the agent may raise an exception
  that nothing catches.
- Redis transactions and Elasticsearch requests are atomic steps; clocks are parameters that do not run backwards. A
  Redis transaction may run any time after the client has read the clock, so readings arrive out of order.
- Scores of the fusion are exact reals.

## Promises that hold only under a condition

- The level schedule: the payoff guard fires in month 1 exactly when the level payment rounds to the first month's
  interest (`PayoffGuard`), and such loans exist within the accepted inputs (`LevelScheduleCanCollapse`). A comment says
  the level payment is rounded up; the code rounds half-up.
- The instalment plan collects the price and has no negative instalment exactly unless the whole of a price that ends in
  half a piastre is paid down (`PriceSplit`, `PlanTotal`, `InstalmentsNonNegative`). Even then its cumulative percentage
  falls only when the one piastre too many shows in the percentage (`SharePaidNeverFalls`, `ShareCanFall`).
- The sliding window holds its limit in all runs exactly for a positive window setting and windows shortened by the
  greatest lag of a transaction behind its clock reading (`SafeExactlyWhen`); without lag these are the windows of the
  setting, with it they can hold one hit too many (`LateTransactionOverfills`). A refused hit counts until its rollback,
  so the counter does not heal by itself before that (`RefusedExactlyWhen`, `LateRollbackRefusesFairHit`).
- A version number grows by one exactly for non-empty index names (`NextIsOneVersionUp`). With several indices behind the
  alias the stale-target delete can hit a live one, exactly under the condition of `StaleDeleteHitsAlias`.
- The claim that a chunk found by both branches outranks the leader of one holds exactly under the inequality of
  `ConsensusExactly`: always up to rank k + 1, and no longer at k + 2 (`ConsensusCanLose`). The default settings stay
  within the bound.
- A stream ends with `done`, and a turn answers at all, exactly when no node raises that the turn arrives at
  (`RaisesExactlyWhen`, `StreamFollowsProtocol`). Nodes do raise: the one that loads the memory, on a message with a
  number of 310 digits (`HugeNumberBreaksTheStream`); and the one that calls tools, exactly when the model's reply to the
  tool planner cannot be walked through on a route that has a tool - its calls are null or a number, or a call is named
  by a list or an object (`ToolsRaiseExactlyWhen`, `NullCallsBreakTheStream`).
- A section leaves the heading path at the next heading of its level or above, exactly unless levels were skipped above
  it: then only a heading at the place its title took closes it (`ClosedSectionIsGone`, `SkippedLevelStaysOpen`).
- Counted offline, chunks keep to the setting only up to three quarters of a token for each sentence (`ChunkBound`,
  `PieceBound`), and slices of one word up to one and a half budgets (`SliceBound`); both happen
  (`FullChunkExceedsTheSetting`, `ArabicSliceExceedsTheBudget`).
- The last instalment shows 100% exactly when what was paid is near enough to the price (`LastInstalmentPaysInFull`).
- Integers print alike and grouped amounts read back exactly as far as doubles hold them (`ServicesPrintAlike`,
  `GroupedRoundTrip`).
- In process a caller gets at most 2 limit - 1 hits through in a stretch of one window without its end, and at most
  2 limit with it (`FewerThanTwiceTheLimit`, `AtMostTwiceTheLimit`); both bounds are reached.
- Reranking is a permutation exactly for distinct usable indexes (`RerankPermutesExactly`).
- Ingesting again is idle exactly when documents with the same id agree (`SecondRunIsIdle`).

## Model

| member | source | states |
|---|---|---|
| `Rounding.RoundHalfUp` | apps/reports-svc/lib/finance.rb:354-356 | rounding to the piastre is to the nearest, and a tie goes away from zero |
| `Calendar.AddMonthsIncreasing` | apps/reports-svc/lib/finance.rb:151 | `start >> n` grows strictly with n, month-end clamping included |
| `Calendar.GregorianMonths` | apps/reports-svc/lib/finance.rb:151 | the months have the Gregorian lengths: 153 days for every five months from March on, and the leap years of four centuries |
| `Pricing.ValidateYears` | apps/reports-svc/lib/finance.rb:409-418 | accepted exactly for whole years from 1 to 40 |
| `Pricing.PriceSplit` | apps/reports-svc/lib/finance.rb:74-75 | down payment and remainder add up to the price rounded to the piastre; the remainder is negative exactly when all of a price that ends in half a piastre is paid down |
| `Amortisation.Amortise` | apps/reports-svc/lib/finance.rb:134-160 | the month loop with its three guards computes `ScheduleFrom`, the schedule the lemmas below are about |
| `Amortisation.AmortisationConserves` | apps/reports-svc/lib/finance.rb:132-160 | for every rate and payment: 1 to n rows, the level payment until the closing row, balances strictly down to exactly 0, principal column = loan, payments = loan + interest |
| `Amortisation.DueDatesIncrease` | apps/reports-svc/lib/finance.rb:151 | due dates strictly increase from the start date on |
| `Amortisation.RollupPreservesTotals` | apps/reports-svc/lib/finance.rb:162-174 | the yearly rollup partitions the rows in order: year y has the totals and the closing balance of exactly the months above 12 (y - 1) up to 12 y; all three column sums are preserved, and the last year closes at 0 |
| `AmortisationAccuracy.LevelPaymentIsRoundedAnnuity` | apps/reports-svc/lib/finance.rb:121-130 | the degenerate-schedule error can never be raised, and the level payment is the annuity rounded half-up (a comment there says rounded up) |
| `AmortisationAccuracy.AnnuityEquation` | apps/reports-svc/lib/finance.rb:61-64 | the annuity, compounded over all payments, equals the compounded loan, for zero and positive rates |
| `AmortisationAccuracy.ExactBalanceReachesZero` | apps/reports-svc/lib/finance.rb:56-64 | unrounded amortisation with the annuity is never negative and is exactly 0 in month n |
| `AmortisationAccuracy.BalanceDrift` | apps/reports-svc/lib/finance.rb:134-147 | in every month k before the closing row the rounded balance is within ((1+r)^k - 1)/r piastres (k when r = 0) of the exact one |
| `AmortisationAccuracy.ClosingRow` | apps/reports-svc/lib/finance.rb:143-146 | the closing payment: in month n within the drift bound of the exact annuity; by the payoff guard in month 1, in full; otherwise at most the level payment, where the exact balance is within the bound of 0 |
| `AmortisationAccuracy.PayoffGuard` | apps/reports-svc/lib/finance.rb:144 | the payoff guard fires exactly in month 1 of a loan of several months whose level payment equals its first interest |
| `AmortisationAccuracy.AmortisationShape` | apps/reports-svc/lib/finance.rb:141-142 | interest never rises and the repaid share never falls over the level rows |
| `Mortgage.Calculate` | apps/reports-svc/lib/finance.rb:67-117 | succeeds exactly on valid inputs that leave something to finance, and otherwise names the first field at fault; the down payment is the asked percentage of the price and the principal the rest, each to the nearest piastre; the monthly rate is a twelfth of the yearly one; totals are the sums over the rows, and the report adds up: first and last payment, total cost, interest per principal, yearly rollup |
| `Mortgage.LevelScheduleCanCollapse` | apps/reports-svc/lib/finance.rb:119-146 | the promised level schedule fails: EGP 100,000 at 100% over 40 years is repaid in one row of EGP 108,333.33 |
| `InstalmentPlan.AmountsClosedForm` | apps/reports-svc/lib/finance.rb:216-220 | every instalment in closed form: the base, capped by what is left, and all that is left at the end |
| `InstalmentPlan.InstalmentsSound` | apps/reports-svc/lib/finance.rb:205-220 | `count` non-negative instalments that sum to the remainder; the last is within count/2 piastres of the base, also where the cap applies |
| `InstalmentPlan.InstalmentsNonNegative` | apps/reports-svc/lib/finance.rb:199-220 | no instalment is negative exactly unless the down payment was rounded above the price |
| `InstalmentPlan.PriceEntriesAscend` | apps/reports-svc/lib/finance.rb:208-228 | down payment and instalments are numbered 0, 1, 2, ... and due on strictly later days |
| `InstalmentPlan.SortedPlan` | apps/reports-svc/lib/finance.rb:290 | sorting leaves them in sequence and only slots the deposit in, at its place by due date, kind and number |
| `InstalmentPlan.BuildRows` | apps/reports-svc/lib/finance.rb:289-309 | the loop over the sorted entries computes `RowsOf`: running cash and running share of the unit, without the deposit |
| `InstalmentPlan.Entries` | apps/reports-svc/lib/finance.rb:207-229 | the loop over the instalments computes the entries of `AmountsFrom`, dated `step * index` months after the start |
| `InstalmentPlan.Schedule` | apps/reports-svc/lib/finance.rb:187-283 | for every frequency text, stripped and in lower case: succeeds exactly on valid input, otherwise names the first field at fault; down payment, remainder, deposit, base instalment and monthly equivalent are the shares of the price they are meant to be, to the nearest piastre, and the count is 12, 4, 2 or 1 for each year by the name of the frequency; returns the entries, rows, totals and yearly rollup the lemmas are about |
| `InstalmentPlan.ParseFrequency` | apps/reports-svc/lib/finance.rb:36-43 | a frequency is accepted exactly when its name is one of the four, or blank for quarterly, and its steps fill the year with as many instalments as the name stands for |
| `InstalmentPlan.StrippedBetween` | apps/reports-svc/lib/finance.rb:431 | stripping takes nothing but blanks away, at both ends |
| `InstalmentPlan.PlanTotal` | apps/reports-svc/lib/finance.rb:243 | all payments are the rounded price plus the deposit, exactly unless the down payment was rounded above the price |
| `InstalmentPlan.LastInstalmentPaysInFull` | apps/reports-svc/lib/finance.rb:295-306 | the last instalment's row shows the price rounded to the piastre as paid, or one piastre less exactly when the down payment was rounded above the price; it shows 100% exactly when that differs from the price by less than half a hundredth of a percent (a tie counts upwards), as it does for every price in whole piastres |
| `InstalmentPlan.SharePaidNeverFalls` | apps/reports-svc/lib/finance.rb:295-306 | the cumulative percentage never falls along the sorted rows, exactly unless the down payment was rounded above the price and the piastre taken back changes the percentage |
| `InstalmentPlan.ShareCanFall` | apps/reports-svc/lib/finance.rb:295-306 | an accepted input where it falls: half a piastre, all of it paid down, shows 200% and then 0% |
| `InstalmentPlan.YearsAddUp` | apps/reports-svc/lib/finance.rb:311-322 | each calendar year has the number, the total and the last percentage of exactly its rows; the years ascend, and their totals add up to everything collected |
| `OverlapPlanner.TailLongest` | apps/rag-svc/app/ingestion/chunker.py:170-187 | the overlap tail is the longest suffix within the overlap budget |
| `OverlapPlanner.NextStartProgress` | apps/rag-svc/app/ingestion/chunker.py:131-136 | after a flush the next chunk starts strictly later, within the overlap budget, with room for the next sentence |
| `OverlapPlanner.PlanSound` | apps/rag-svc/app/ingestion/chunker.py:114-143 | every plan tiles the units in order, keeps pieces within the budget, closes a piece only when the next unit does not fit, and never repeats a whole piece |
| `OverlapPlanner.Reconstruction` | apps/rag-svc/app/ingestion/chunker.py:114-143 | deleting the repeated starts and concatenating gives back all units in order |
| `Chunking.IterSections` | apps/rag-svc/app/ingestion/chunker.py:52-76 | the loop over the lines of a text computes `SectionsFrom` of the document read from it |
| `Lines.ReadHeading` | apps/rag-svc/app/ingestion/chunker.py:28 | a heading has level 1 to 6 and a stripped title of at least one character |
| `Lines.HeadingReadsBack` | apps/rag-svc/app/ingestion/chunker.py:28 | a heading written as one to six marks, a space and a title is read back as this level and title, exactly unless the title ends in a mark and is more than that |
| `Lines.LinesSplitAtSentenceEnds` | apps/rag-svc/app/ingestion/chunker.py:44-49 | a line is cut exactly behind the ends of its sentences, English and Arabic: no sentence breaks within itself, all but the last end in a terminator, and each is stripped and not empty |
| `Lines.LinesReadBack` | apps/rag-svc/app/ingestion/chunker.py:58 | lines written with either line break are read back as they were, empty ones included |
| `DocumentWords.LinesKeepWords` | apps/rag-svc/app/ingestion/chunker.py:58 | breaking a text into lines keeps its words, in order |
| `DocumentWords.SentencesKeepWords` | apps/rag-svc/app/ingestion/chunker.py:44-49 | splitting a line into sentences keeps its words, in order |
| `Chunking.SectionsCover` | apps/rag-svc/app/ingestion/chunker.py:52-76 | the sections hold every sentence once, in order, and none is empty |
| `Chunking.HeadingIsBoundary` | apps/rag-svc/app/ingestion/chunker.py:61-70 | a heading separates: the sections before and after it do not depend on each other beyond the heading path |
| `HeadingPaths.HeadingPath` | apps/rag-svc/app/ingestion/chunker.py:65-69 | behind a heading of level L the path has min(L, old length + 1) titles: the last one is its own, and those before it have not changed |
| `HeadingPaths.HeadedSection` | apps/rag-svc/app/ingestion/chunker.py:52-76 | the text behind a heading, up to the next one, is one section with that path and all its sentences |
| `HeadingPaths.ClosedSectionIsGone` | apps/rag-svc/app/ingestion/chunker.py:65-69 | a section is closed by a heading at or above the place its title took: the sections behind are those of the document without it |
| `HeadingPaths.OpenSectionStays` | apps/rag-svc/app/ingestion/chunker.py:65-69 | a heading below that place leaves it open, even when its level is not deeper than that of the section |
| `HeadingPaths.SkippedLevelStaysOpen` | apps/rag-svc/app/ingestion/chunker.py:65-69 | so behind ### A a section ## B stands below A |
| `Chunking.TokenAwareChunker.Configure` | apps/rag-svc/app/ingestion/chunker.py:93-99 | arguments that are absent (or, but for the overlap, zero) fall back to the settings; what is out of range becomes the nearest bound, what is in range stays, and the result is always valid |
| `Chunking.TokenAwareChunker.RoomForText` | apps/rag-svc/app/ingestion/chunker.py:93-112 | with such a configuration every section has a budget of 1 to `chunk_tokens` and an overlap below it, however long its heading |
| `Chunking.TokenAwareChunker.OverlapTail` | apps/rag-svc/app/ingestion/chunker.py:170-187 | the backward loop returns the tail and token sum of the planner's tail scan |
| `Chunking.TokenAwareChunker.WordOverlap` | apps/rag-svc/app/ingestion/chunker.py:216-227 | the same for words, which count at least one token |
| `Chunking.TokenAwareChunker.HardSplit` | apps/rag-svc/app/ingestion/chunker.py:189-214 | the word loop renders the plan over words, without blank pieces |
| `Chunking.TokenAwareChunker.SplitSection` | apps/rag-svc/app/ingestion/chunker.py:108-143 | the sentence loop appends exactly the chunks of the section's plan, numbered on |
| `Chunking.TokenAwareChunker.Split` | apps/rag-svc/app/ingestion/chunker.py:102-145 | from the raw text: the whole splitter is the plan of every section, rendered and numbered, with the stub folded |
| `Chunking.TokenAwareChunker.FoldTrailingStub` | apps/rag-svc/app/ingestion/chunker.py:237-260 | the in-place edit of the last two chunks computes `MergeTrailingStub`: the last chunk is folded exactly when its count is below the minimum, both have the same heading, and both counts together are within the setting; the rest stays |
| `Chunking.CharSlices` | apps/rag-svc/app/ingestion/chunker.py:229-235 | the character slices of a word are within the size and concatenate back to it |
| `ChunkerGuarantees.SectionReconstruction` | apps/rag-svc/app/ingestion/chunker.py:108-143 | for every section, counter and setting: slices within the budget, overlaps that are longest allowed suffixes and never a whole chunk, and the sentences recovered exactly |
| `ChunkerGuarantees.FittingSection` | apps/rag-svc/app/ingestion/chunker.py:114-143 | a section of sentences that fit gets one chunk per planned slice, carrying exactly that slice |
| `ChunkerGuarantees.SectionHeading` | apps/rag-svc/app/ingestion/chunker.py:108-143 | every chunk of a section carries the heading of the section |
| `ChunkerGuarantees.HardSplitReconstruction` | apps/rag-svc/app/ingestion/chunker.py:189-214 | hard splits follow the same plan over words, and the words joined are the sentence |
| `ChunkerGuarantees.HardSplitKeepsText` | apps/rag-svc/app/ingestion/chunker.py:212-214 | the pieces are exactly the planned ones without the blank ones, span by span, in order and as often as planned |
| `ChunkerGuarantees.OversizeWordSlices` | apps/rag-svc/app/ingestion/chunker.py:199-203 | a word above the budget is cut into slices that spell it out |
| `ChunkerGuarantees.OrdinalsSequential` | apps/rag-svc/app/ingestion/chunker.py:237-260 | ordinals stay 0..n-1 and headings stay put after folding |
| `ChunkerGuarantees.FoldStaysInSection` | apps/rag-svc/app/ingestion/chunker.py:243-248 | folding only joins neighbours cut under the same heading and leaves earlier chunks alone |
| `ChunkerGuarantees.FoldKeepsText` | apps/rag-svc/app/ingestion/chunker.py:250-258 | the merged text is the previous text plus the whole body of the stub; only the repeated heading is lost |
| `ChunkerGuarantees.SplitKeepsStub` | apps/rag-svc/app/ingestion/chunker.py:237-260 | in what the splitter returns for any text, a folded stub loses only its repeated heading |
| `ChunkerGuarantees.DocumentCovered` | apps/rag-svc/app/ingestion/chunker.py:102-145 | for a whole document: the chunks before folding are those of the planned cuts of its sections, in order, and the cuts without the sentences they repeat are all sentences of the document, once and in order |
| `DocumentWords.ChunksKeepWords` | apps/rag-svc/app/ingestion/chunker.py:102-145 | for every text: the words of its chunks before folding, those of repeated sentences deleted, are the words of all lines but the headings, once and in order |
| `ChunkTokens.ChunkBound` | apps/rag-svc/app/ingestion/chunker.py:80 | how far the docstring's token bound holds with the offline counter: a chunk of whole sentences has at most `chunk_tokens` tokens plus three quarters for its heading and each sentence, rounded up - or, where the heading leaves no more than the minimum, the minimum and the heading instead |
| `ChunkTokens.PieceBound` | apps/rag-svc/app/ingestion/chunker.py:189-214 | the same bound for the pieces of a sentence that is too long, with its words for the sentences |
| `ChunkTokens.SliceBound` | apps/rag-svc/app/ingestion/chunker.py:229-235 | a slice of a word that is larger than the budget counts at most half a token for each of its characters, next to the heading: one and a half budgets |
| `ChunkTokens.ArabicSliceExceedsTheBudget` | apps/rag-svc/app/ingestion/chunker.py:231 | an Arabic word of three letters for each token of the budget stays in one slice, although it counts one and a half budgets: the slice size is right for Latin letters only |
| `ChunkTokens.FullChunkExceedsTheSetting` | apps/rag-svc/app/ingestion/chunker.py:124-130 | chunks do exceed the setting: 250 sentences of ten letters, 2 tokens each, make a chunk of 687 tokens for a setting of 500, which is the bound without the share of a heading; of nine letters, 625 |
| `ChunkTokens.CopiesInOneChunk` | apps/rag-svc/app/ingestion/chunker.py:114-143 | a section without heading whose equal sentences just fit the budget becomes one chunk |
| `TokenEstimate.NormalisedIsWords` | apps/rag-svc/app/core/tokens.py:112 | collapsing white space and stripping leaves exactly the words of `str.split`, joined by single spaces |
| `TokenEstimate.EstimateSeesWords` | apps/rag-svc/app/core/tokens.py:108-119 | the estimate of a text depends only on its words, and joining them again does not change it |
| `TokenEstimate.EstimateIsMonotone` | apps/rag-svc/app/core/tokens.py:115-119 | the rounded estimate never falls when words are appended |
| `TokenEstimate.LongestPrefix` | apps/rag-svc/app/core/tokens.py:97-105 | the binary search finds the longest word prefix within the budget |
| `TokenEstimate.Truncate` | apps/rag-svc/app/core/tokens.py:84-105 | empty for a budget of 0 or less, unchanged when it fits, otherwise the longest proper word prefix that fits; never above the budget |
| `SlidingWindow.RedisKey.Hit` | apps/search-svc/app/core/redis.py:224-246 | one transaction, run at any time after its clock reading: trim, add, count, expire; verdict, remaining and retry time are those of the resulting count |
| `SlidingWindow.RedisKey.SlidingWindowHit` | apps/search-svc/app/core/redis.py:213-246 | the whole call: every hit passes and nothing changes when Redis does not answer; otherwise the verdict of the transaction, a refused hit taken back if the rollback arrives |
| `SlidingWindow.WindowSafety` | apps/search-svc/app/core/redis.py:213-246 | for every order of transactions that reach Redis at most `lag` after their clock reading, from any number of clients, with late, repeated or missing rollbacks: no window (t - W + lag, t] holds more than the limit of allowed hits |
| `SlidingWindow.RefusedExactlyWhen` | apps/search-svc/app/core/redis.py:236-245 | a hit is refused if allowed hits and refused ones still to be rolled back fill the limit of the window that ends when Redis runs it, and only if they fill it together with those of its lag; exactly then when Redis runs it at its reading |
| `SlidingWindow.PromptRollbacksAreFair` | apps/search-svc/app/core/redis.py:241-245 | with every rollback done, a hit run at its reading is refused exactly when its window already holds the limit of allowed hits, whatever the lag of the others |
| `SlidingWindow.LateRollbackRefusesFairHit` | apps/search-svc/app/core/redis.py:241-245 | a late rollback does refuse a hit in a window without any allowed hit |
| `SlidingWindow.LateTransactionOverfills` | apps/search-svc/app/core/redis.py:224-234 | a transaction one millisecond late puts three allowed hits into a window of one second with a limit of 2 |
| `SlidingWindow.LagIsUnsafe` | apps/search-svc/app/core/redis.py:224-234 | for every positive limit and window setting, windows shortened by less than the lag can hold one hit too many |
| `SlidingWindow.NonPositiveWindowIsUnsafe` | apps/search-svc/app/core/redis.py:225-234 | a window setting of 0 or less makes EXPIRE delete the key, and any number of hits passes |
| `SlidingWindow.SafeExactlyWhen` | apps/search-svc/app/core/redis.py:224-234 | all runs are safe exactly when the window setting is positive and the windows are shortened by at least the greatest lag - or nothing may pass, or nothing is left of the windows; so the windows of the setting itself are safe exactly when no transaction lags |
| `LocalWindow.LocalLimiter.LocalHit` | apps/rag-svc/app/core/rate_limit.py:38-51 | one hit updates the bucket, evicts above the bound, and returns count and retry time of the caller's entry |
| `LocalWindow.LocalLimiter.Evict` | apps/rag-svc/app/core/rate_limit.py:46-49 | the eviction loop removes exactly the stale entries |
| `LocalWindow.WaitingIsEnough` | apps/rag-svc/app/core/rate_limit.py:50 | waiting the returned time starts a new window exactly when the rest of the window was whole seconds or less than one |
| `LocalWindow.EvictionInvisible` | apps/rag-svc/app/core/rate_limit.py:38-51 | eviction, at any threshold, never changes a returned count compared with an unbounded map |
| `LocalWindow.CallersIndependent` | apps/rag-svc/app/core/rate_limit.py:38-51 | a caller's entry depends on its own hits only |
| `LocalWindow.WindowsApart` | apps/rag-svc/app/core/rate_limit.py:40-45 | windows of one caller are disjoint, at least a window long, and count their hits one by one |
| `LocalWindow.OneWindow` | apps/rag-svc/app/core/rate_limit.py:71-76 | inside one window exactly the hits counted up to the limit pass |
| `LocalWindow.FewerThanTwiceTheLimit` | apps/rag-svc/app/core/rate_limit.py:71-76 | any half-open stretch [t, t + W) lets at most 2 limit - 1 hits of a caller pass |
| `LocalWindow.BoundIsReached` | apps/rag-svc/app/core/rate_limit.py:71-76 | that bound is reached |
| `LocalWindow.AtMostTwiceTheLimit` | apps/rag-svc/app/core/rate_limit.py:71-76 | any closed stretch [t, t + W] lets at most 2 limit hits of a caller pass |
| `LocalWindow.ClosedBoundIsReached` | apps/rag-svc/app/core/rate_limit.py:71-76 | that bound is reached too |
| `IndexNames.Parse` | apps/search-svc/app/es/index_manager.py:25 | a versioned name is a non-empty base, _v and digits, and reads back into the same name |
| `IndexNames.ParseOfVersioned` | apps/search-svc/app/es/index_manager.py:25 | a name built from a base and digits parses back into them |
| `IndexNames.NextIsOneVersionUp` | apps/search-svc/app/es/index_manager.py:32-42 | the next name is one version up exactly for every non-empty name, and never the same name |
| `IndexNames.NextKeepsTheBase` | apps/search-svc/app/es/index_manager.py:35-36 | the next version of a versioned name keeps its base |
| `IndexNames.PlainBecomesTheBase` | apps/search-svc/app/es/index_manager.py:37 | a name without a version becomes the base of version 2 |
| `IndexLifecycle.IndexManager.UpdateAliases` | apps/search-svc/app/es/index_manager.py:160-161 | the alias request is atomic: all actions or none |
| `IndexLifecycle.IndexManager.SwapAlias` | apps/search-svc/app/es/index_manager.py:142-163 | detaches every other index (or only the named one) and attaches the new one, in one request |
| `IndexLifecycle.IndexManager.EnsureIndex` | apps/search-svc/app/es/index_manager.py:120-138 | bootstraps an unset alias and changes nothing otherwise |
| `IndexLifecycle.IndexManager.ZeroDowntimeReindex` | apps/search-svc/app/es/index_manager.py:192-245 | from every cluster state, the method leaves the cluster of `Attempt`, including failing requests |
| `IndexLifecycle.ReindexOutcome` | apps/search-svc/app/es/index_manager.py:192-245 | from an alias on one index, readers end up with the complete new documents, or with the old ones if the populator raised or the next version's name is the alias's own (then creating the target fails); the alias is on exactly one index |
| `IndexLifecycle.ReindexFromUnset` | apps/search-svc/app/es/index_manager.py:120-138 | from an unset alias: the bootstrap puts it on one index, where the outcome above applies; where an index has the name of the alias it stays unset and no attempt succeeds, at best leaving a filled target behind |
| `IndexLifecycle.AttemptOnAnyCluster` | apps/search-svc/app/es/index_manager.py:192-245 | from any cluster: when an attempt succeeds, what it leaves behind the alias, and that it spares every index but the target and the dropped ones |
| `ReindexProtocol.StepKeepsInv` | apps/search-svc/app/es/index_manager.py:204-233 | every await point keeps the protocol invariant, for any crash and any leftovers of earlier attempts |
| `ReindexProtocol.ReadersNoticeOnlyTheSwap` | apps/search-svc/app/es/index_manager.py:225-226 | what readers find changes only at the swap, from the whole old set to the whole new one |
| `ReindexProtocol.DeletesSpareTheLiveIndex` | apps/search-svc/app/es/index_manager.py:211-213 | neither the stale-target delete nor the clean-up delete hits the index behind the alias |
| `ReindexProtocol.ZeroDowntime` | apps/search-svc/app/es/index_manager.py:192-245 | in every state of every run, with crashes at any await, the alias is on exactly one existing index; the next version's name is taken not to be the alias's own |
| `ReindexProtocol.UninterruptedRun` | apps/search-svc/app/es/index_manager.py:192-245 | the run that nothing interrupts exists and ends in the cluster that `Attempt` describes |
| `ReindexProtocol.StaleDeleteHitsAlias` | apps/search-svc/app/es/index_manager.py:210-213 | with several indices behind the alias, the stale delete hits one of them exactly when the next version of the first is one of them |
| `ReindexProtocol.TwoIndicesLoseDocuments` | apps/search-svc/app/es/index_manager.py:210-213 | p_v1 and p_v2 behind the alias: the live p_v2 is deleted |
| `ToolPlanning.CallsStayOnMenu` | apps/rag-svc/app/graph/nodes.py:421-492 | on a known route at most three calls are made, each on the route's menu; planning raises, and makes none, exactly when the route has a registered tool and the reply is malformed |
| `ToolPlanning.PlansExactly` | apps/rag-svc/app/graph/nodes.py:421-492 | the first three calls the model asks for among those offered are made, in its order; where it asks for none, or there is no plan, the call its route stands for |
| `ToolPlanning.OfferedExactly` | apps/rag-svc/app/tools/registry.py:50-58 | the planner is shown exactly what is on the menu and registered |
| `ToolPlanning.Menus` | apps/rag-svc/app/tools/registry.py:22-35 | which tool is on the menu of which route |
| `ToolPlanning.UnknownRouteEscapes` | apps/rag-svc/app/tools/registry.py:50-58 | on an unknown route any registered tool could be run |
| `AgentGraph.KeywordRoute` | apps/rag-svc/app/graph/prompts.py:543-551 | the keyword router only returns known routes |
| `AgentGraph.RouteIsKnown` | apps/rag-svc/app/graph/nodes.py:207-241 | the classifier settles on a known route even when the model names another |
| `AgentGraph.OneVisitLess` | apps/rag-svc/app/graph/builder.py:59-89 | every edge decreases the number of visits left, so the graph terminates |
| `AgentGraph.GraphRun` | apps/rag-svc/app/graph/builder.py:121-139 | the compiled graph visits at most `VisitsLeft` nodes from any node and iteration |
| `AgentGraph.RunCallTools` | apps/rag-svc/app/graph/nodes.py:374-418 | the loop over the requests computes `CallTools`: results and citations appended in order; it tells exactly when planning raised |
| `AgentGraph.RunSequential` | apps/rag-svc/app/graph/builder.py:164-190 | the sequential fallback visits the same nodes as the compiled graph, ends in the same state, and raises exactly when the graph does, whichever nodes raise |
| `AgentTurns.TurnGoesRight` | apps/rag-svc/app/graph/builder.py:59-139 | every run, arrival by arrival: behind grading comes generation exactly when the context is sufficient, the rewriting exactly when it is not and fewer than two rounds are done, the tools otherwise; behind the classifier generation exactly for small talk, the rewriting exactly for knowledge without a mortgage question, the tools otherwise; every node writes what it is for and nothing else; the run ends where a node raises or behind guard or generation |
| `AgentTurns.NodeWrites` | apps/rag-svc/app/graph/nodes.py:148-419 | what each node writes: nothing retrieved is never sufficient, and otherwise only a judge that says so finds it insufficient; a known route of the model is taken, otherwise the first one mentioned; tools run in order with their results, sources and names |
| `AgentGraph.GenerationComesLast` | apps/rag-svc/app/graph/builder.py:121-139 | a graph run is the run up to generation, followed by generation unless the guard ended it or a node raised |
| `AgentGraph.SixWays` | apps/rag-svc/app/graph/builder.py:59-139 | a turn takes one of six ways: at most two retrievals, tools at most once and after retrieval only when both rounds failed, at most eleven visits; only the guard ends it early, and a turn that raises has begun one of them |
| `AgentGraph.RaisesExactlyWhen` | apps/rag-svc/app/graph/builder.py:121-139 | every node may raise: only the last node a run arrives at does, and the run ends with an exception exactly when it does, in the state in which it arrived there |
| `AgentGraph.ToolsRaiseExactlyWhen` | apps/rag-svc/app/graph/nodes.py:484-490 | the exact case of the tools: an exception of their own, or a registered tool on the route and a reply of the planner that cannot be walked through |
| `AgentGraph.PlannerRaisesExactlyWhen` | apps/rag-svc/app/graph/nodes.py:484-490 | where no node raises by itself, a turn raises exactly when it arrives at the tools on a route with a registered one and the reply of the planner cannot be walked through |
| `AgentGraph.ToolSafety` | apps/rag-svc/app/graph/nodes.py:374-492 | every tool executed in a run is on the menu of the route it was classified into, at most three per turn |
| `AgentStream.Prepare` | apps/rag-svc/app/graph/builder.py:277-304 | the streaming executor reaches the same state before generation, over the same nodes, as the graph, and raises at the same node |
| `AgentStream.StreamTools` | apps/rag-svc/app/graph/builder.py:339-359 | one `tool_start`, then one `tool_end` per new tool result, whatever results the state already holds; nothing more when the tools raise |
| `AgentStream.StreamTurn` | apps/rag-svc/app/graph/builder.py:270-335 | the streamed events are `EventsOf` what the graph would generate from; it raises exactly when `StreamRaises` |
| `AgentStream.AnswerTurn` | apps/rag-svc/app/graph/builder.py:264-268 | the buffered entry point reports the same turn, or raises alike, with and without the graph library |
| `AgentStream.StreamFollowsProtocol` | apps/rag-svc/app/graph/builder.py:270-335 | every stream begins a word of (tool_start tool_end*)? sources? token* error? done and is closed exactly when no node raised that the turn arrived at; otherwise nothing was sent, unless it was the tools, whose `tool_start` was, or the generation, behind the tool events and the citations |
| `AgentStream.BeginsClosedStream` | apps/rag-svc/app/graph/builder.py:270-335 | to follow the protocol is to be the beginning of a closed stream |
| `AgentStream.HugeNumberBreaksTheStream` | apps/rag-svc/app/retrieval/filters.py:365-378 | a message that is a number of 310 digits or more makes `load_memory` raise (nodes.py:156): then the stream ends before its first event and the buffered turn raises, whatever the planner would have replied |
| `AgentStream.NullCallsBreakTheStream` | apps/rag-svc/app/graph/nodes.py:484-490 | a model that answers the planner with null calls on the web route breaks off every stream behind `tool_start`, and the buffered turn raises |
| `AgentStream.DoneOnceAndLast` | apps/rag-svc/app/graph/builder.py:328-335 | a stream that follows the protocol is closed exactly when done is its last event, and it has no other |
| `AgentStream.StreamSpellsAnswer` | apps/rag-svc/app/graph/builder.py:310-335 | the tokens concatenate to the reported answer, and there is one `tool_end` per executed tool, also when generation breaks off; only a stream that raised ends without reporting |
| `AgentTurns.EventsTellTheTurn` | apps/rag-svc/app/graph/builder.py:270-381 | every event tells the truth: `tool_start` and `done` name the route the classifier settled on, the i-th `tool_end` the i-th executed call and whether it succeeded, `sources` and the report are those of the state the reply was generated from |
| `AgentStream.EntryPointsAgree` | apps/rag-svc/app/graph/builder.py:3-9 | both entry points raise on the same turns; otherwise they report the same route, tools and sources, the same answer exactly when the model says the same both ways, and the same `degraded` and `usage` exactly as far as generation adds nothing to them, which only the buffered one reports |
| `RankFusion.ReciprocalRankFusion` | apps/rag-svc/app/retrieval/fusion.py:24-66 | rejects exactly a wrong number of weights; otherwise every id once, with its score, in the order score, best rank, first appearance |
| `RankFusion.TallyRankings` | apps/rag-svc/app/retrieval/fusion.py:48-61 | the nested loops fill the three dictionaries with score, best rank and first appearance in the de-duplicated rankings |
| `RankFusion.BestRankIsLeast` | apps/rag-svc/app/retrieval/fusion.py:57-58 | the best rank is attained in a ranking and beaten in none |
| `RankFusion.FirstSeenNumbers` | apps/rag-svc/app/retrieval/fusion.py:59-61 | first_seen numbers all ids of all rankings, without repetition |
| `RankFusion.FusionIsUnique` | apps/rag-svc/app/retrieval/fusion.py:63-66 | the specified list is unique, so the result depends neither on the sort algorithm nor on dictionary order |
| `RankFusion.ConsensusExactly` | apps/rag-svc/app/retrieval/fusion.py:8-11 | with equal positive weights, an id at ranks a and b of both lists precedes one at rank c of a single list exactly when (2k+a+b)(k+c) > (k+a)(k+b) |
| `RankFusion.ConsensusWins` | apps/rag-svc/app/retrieval/fusion.py:8-11 | hence consensus wins whenever both ranks are at most k + 1 |
| `RankFusion.ConsensusLosesPastTheBound` | apps/rag-svc/app/retrieval/fusion.py:8-11 | and loses at rank k + 2 in both lists against the leader of one: the documented claim does not hold for all ranks. The defaults, 20 candidates and k = 60, stay inside the bound |
| `RankFusion.ConsensusCanLose` | apps/rag-svc/app/retrieval/fusion.py:8-11 | the smallest such case: k = 1 and lists of three |
| `RankFusion.PositionsAgree` | apps/rag-svc/app/retrieval/fusion.py:69-74 | rank_positions gives the fused rank exactly as long as nothing was repeated before |
| `HybridSearch.MergeRows` | apps/rag-svc/app/retrieval/hybrid_search.py:221-228 | every id stands at its first row, with the scores of its rows merged in order |
| `HybridSearch.MergedIsFirstNonZero` | apps/rag-svc/app/retrieval/hybrid_search.py:227-228 | after merging, the first score of an id that is neither absent nor zero stands |
| `HybridSearch.RankPositions` | apps/rag-svc/app/retrieval/fusion.py:69-74 | first occurrence wins, counted from 1 |
| `HybridSearch.Fuse` | apps/rag-svc/app/retrieval/hybrid_search.py:218-254 | the candidates are the unique fusion of both id lists, distinct objects, each the first row of its id with merged branch scores, fused score and positions |
| `HybridSearch.ConsensusComesFirst` | apps/rag-svc/app/retrieval/hybrid_search.py:218-254 | with equal positive weights and lists of at most k + 1 rows, all shared chunks precede all others |
| `HybridSearch.Rerank` | apps/rag-svc/app/retrieval/hybrid_search.py:256-283 | the candidates the provider names come first, in its order; behind them those it leaves out, in theirs; nothing else; a named candidate has the last score it was given, the others keep theirs; without an answer nothing changes |
| `HybridSearch.RerankKeepsEveryCandidate` | apps/rag-svc/app/retrieval/hybrid_search.py:279-283 | reranking loses and invents no candidate, whatever indexes come back |
| `HybridSearch.RerankPermutesExactly` | apps/rag-svc/app/retrieval/hybrid_search.py:266-283 | it is a permutation exactly when the usable indexes are distinct |
| `Ingestion.IngestionPipeline.Flush` | apps/rag-svc/app/ingestion/pipeline.py:263-321 | one batch is embedded and persisted as `FlushBatch`: a failed embedding fails the whole batch, a failed write one document |
| `Ingestion.IngestionPipeline.PersistBatch` | apps/rag-svc/app/ingestion/pipeline.py:300-319 | the cursor hands every document its own stretch of the vectors |
| `Ingestion.IngestionPipeline.IngestSource` | apps/rag-svc/app/ingestion/pipeline.py:200-260 | the document loop with its pending batch computes `Ingested`; with an id filter, a positive limit, a loader that cannot be pruned or no request to prune, no id is lost, and otherwise only loaded ids stay; exactly the empty documents, those without chunks and, unless forced, the unchanged ones are skipped |
| `Ingestion.PruneShrinks` | apps/rag-svc/app/ingestion/pipeline.py:253-256 | pruning keeps exactly the documents the loader produced, unchanged |
| `Ingestion.BatchesAreFull` | apps/rag-svc/app/ingestion/pipeline.py:244-248 | a batch goes out as soon as it holds the flush size, and not before |
| `IngestionGuarantees.EveryDocumentCounted` | apps/rag-svc/app/ingestion/pipeline.py:211-260 | documents = ingested + skipped + failed, whatever fails |
| `IngestionGuarantees.VectorsStayWithTheirDocument` | apps/rag-svc/app/ingestion/pipeline.py:291-317 | every entry of the final store is an old one or holds all chunks of one document, each with its own vector or none |
| `IngestionGuarantees.BatchingIsInvisible` | apps/rag-svc/app/ingestion/pipeline.py:222-251 | without failures the store is the one that storing the selected documents one by one leaves, for every batch size, and all of them count as ingested |
| `IngestionGuarantees.IngestsTheRest` | apps/rag-svc/app/ingestion/pipeline.py:222-251 | without failures every document that is not skipped is ingested, with force every ingestible one, and the store then holds the content of such a document under its id |
| `IngestionGuarantees.SecondRunIsIdle` | apps/rag-svc/app/ingestion/pipeline.py:228-236 | a second run ingests nothing exactly when ingestible documents with the same id have the same checksum, and then leaves the store unchanged |
| `IngestionGuarantees.Totals` | apps/rag-svc/app/ingestion/pipeline.py:92-103 | the loop adds up all counters of all sources |
| `IngestionGuarantees.TotalsAccount` | apps/rag-svc/app/ingestion/pipeline.py:92-103 | the totals account for all documents exactly when every source does |
| `DigitGrouping.GroupDigits` | apps/rag-svc/app/ingestion/formatting.py:90-100 | the loop prints the sign and the digits in groups of three from the right |
| `DigitGrouping.ServicesPrintAlike` | apps/reports-svc/lib/formatting.rb:25-30 | reversing, scanning and reversing again prints every integer the same way - always for a decimal, and for an integer exactly if it is a double |
| `DigitGrouping.DecimalsAreCut` | apps/reports-svc/lib/formatting.rb:26 | a decimal is cut off at its point, whatever its sign |
| `DigitGrouping.GroupedRoundTrip` | apps/rag-svc/app/retrieval/filters.py:248-269 | the parser reads a grouped number back, times its unit, exactly when no area follows, the amount is large enough and the product of doubles is exact, as it is up to 2^53; it raises exactly when number or product exceed every double and no area follows; one comma is never taken for a decimal mark |
| `DigitGrouping.PriceRoundTrip` | apps/rag-svc/app/retrieval/filters.py:248-269 | a bare printed number is recovered exactly from 100 000 on, if it is a double |
| `DigitGrouping.OneComma` | apps/rag-svc/app/retrieval/filters.py:250-253 | a single comma separates thousands exactly if three digits follow it; otherwise it is a decimal mark, and the number is what its digits say, divided by ten for each digit behind it |

## Left out

- Amortisation.LevelPayment: BigDecimal's 32-digit working precision of the power is exact exponentiation here.
- Mortgage.Calculate: the Float presentation of the report and the parsing of numbers and dates from strings are not modelled; the reason texts of an error are not stated, only its field.
- InstalmentPlan.Schedule: labels and the echo of the input are not modelled, and a start date is always given; lower case is that of the letters A to Z.
- Calendar.AddMonthsIncreasing: the calendar is Gregorian throughout, without the 1582 reform of the Ruby library.
- Chunking.TokenAwareChunker.Split: the metadata copies of the chunks are not modelled.
- ChunkTokens.ChunkBound: for the offline estimate; the count of the joined text of a chunk is not additive for byte-pair encodings and is not bounded, and neither is that of a chunk a stub was folded into.
- TokenEstimate.Truncate: the heuristic path only; cutting at byte-pair tokens is not modelled.
- SlidingWindow.WindowSafety: clocks that differ between clients, so that readings run ahead of Redis, are not modelled; a transaction that the client repeats after a timeout is not either; hits that pass because Redis did not answer are not counted.
- LocalWindow.LocalLimiter.LocalHit: each scope has one window length, as every dependency of the service has. The shared counter that is asked first, while Redis answers, is not modelled.
- IndexLifecycle.IndexManager.ZeroDowntimeReindex: mappings, statistics and document counts of the report are not modelled; a server-side copy that fails half way counts as a populator that raises.
- IndexLifecycle.ReindexOutcome: an existence test that resolves aliases is not covered: alias "p_v2" on "p_v1", where the next version's name is the alias's own, fails here at the creation of the target.
- IndexLifecycle.ReindexFromUnset: the alias and the first version of the index have different names, as their settings do.
- ReindexProtocol.ZeroDowntime: the alias has no name here, so the case that the next version's name is the alias's own is not among the runs; one reindexer at a time, and no live writes into the old index while the new one is filled.
- AgentGraph.RunSequential: the graph library and its checkpoints are not modelled; every turn starts from the initial state, which sets every key. Request identifiers and retrieval statistics, which no decision reads, are not part of the state.
- AgentGraph.RaisesExactlyWhen: a node that raises leaves the state as it was, so tools that had already run by then are not shown; their `tool_end` events are missing in the code, too.
- AgentGraph.ToolSafety: the confirmation that tools with side effects ask for is inside the tools and is not modelled.
- AgentStream.StreamTurn: persistence of the turn, message ids and latencies are not modelled.
- RankFusion.ReciprocalRankFusion: scores are exact reals; ties that only arise by rounding of doubles are not modelled.
- HybridSearch.Fuse: the SQL of the branches, the metadata prefilters and the score threshold after reranking are not modelled.
- Ingestion.IngestionPipeline.IngestSource: the loaders, the run status and the list of recorded errors are not modelled; a source that raises half way is not modelled.
- DigitGrouping.GroupedRoundTrip: rounding to a double is any function with the properties that the proofs need; the number and its unit arrive already cut out of the text.
- Model providers, HTTP, database drivers, PDF and CSV rendering, authentication, health probes, configuration, prompts, query filters other than amounts, and the web and mobile clients: glue or easy members.
