# CortexGo in Dafny

CortexGo is an agent framework written in Go. This project models the parts of it that hold state or
carry an algorithm, and proves what they guarantee:

* **Conversations** (`Messages`, `Compaction`, `AgentHistory`, `MemoryStore`, `AgentRun`, `AgentProtocol`,
  `AgentInvariant`, `AgentAccounts`, `AgentLosses`, `AgentLossWitnesses`, `AgentBudget`, `AgentRefinement`, and
  `TurnFacts`, `HistoryFacts`, `CallChecks` on what single messages, stages and checks do). A run lists a session, may
  compact it twice (token budget, then message limit), replaces it in the store, runs a bounded model/tool loop and
  appends one finished turn. `AgentRun` is the run by itself, `AgentProtocol` any number of runs interleaved at every
  List, Replace and Append, and `AgentRefinement` proves that a run by itself is a behaviour of the protocol. A
  session is described by an account (`AgentHistory.Account`): the turns it goes back to, the position among their
  messages from which on it still holds them, and the position up to which a summarizer was given them for the summary
  it starts with. The protocol keeps the log of all turns appended to a session beside the account of what is stored.
* **Knowledge** (`Splitter`, `SplitterFacts`, `ChunkFacts`, `Tokenizer`, `TokenFacts`, `ChunkKeys`, `Scoring`,
  `Sorting`, `Ranking`, `IndexTypes`, `KeyedMaps`, `LexicalIndex`, `VectorIndex`, `Fusion`, `HybridIndex`,
  `HybridFacts`, `PersistentIndex`, `PersistentHybrid`, `PersistentFacts`). The splitter and its windows, the
  two-buffer tokenizer, Cauchy-Schwarz for the cosine, the two in-memory searches, the hybrid index that keeps a
  lexical and a vector map in step through failures and cancellations, and its variant over a file.
* **Admission** (`Limiter`, `LimiterFacts`, `LimiterClock`, `Budget`, `BudgetDecisions`, `BudgetClock`). The pruning
  sliding-window limiter and the fixed-window budget, each compared with a log of every admission ever made.
* **Tasks** (`TaskQueue`). Submitters, a bounded channel, workers and the record table, as interleaved steps.
* **Provider edges** (`StreamEvents`, `Streaming`, `StreamingFacts`, `Embedding`). Folding stream deltas into tool
  calls, and scattering an embedding response by index.
* **Tools** (`ToolSchema`, `SchemaFacts`, `SchemaKeywords`, `ToolRegistry`). The schema decoder and the recursive
  validator against a declarative meaning of schemas, and the registry that relies on them.

`Results`, `Text` and `Collections` hold what the others share.

Loops and objects that change in place are methods and classes proved against specification functions; the
lemmas are about those functions. Maps whose iteration order Go leaves open are walked in arbitrary order; where the
order decides the outcome, in validation, it is a parameter.

## Reading the model

* Strings are sequences of runes. The Unicode tables, the square root (any non-negative function whose square is
  its argument), the JSON syntax check of tool arguments, the models, tools, summarizers, embedders and handlers
  are parameters, so the results hold for all of them.
* Floating-point numbers are reals. Machine integers are unbounded, except where the code itself tests for one:
  type `integer` of a schema accepts whole numbers in the range of a 64-bit integer. For numbers outside that
  range the Go conversion the code uses is implementation-specific; the model rejects them all, 2^63 included.
* Times are integers in nanoseconds and are passed in. The limiter reads the clock before it takes its lock
  (`internal/api/access.go:77-78`), so that the readings for a key are ordered by the lock is an explicit assumption
  there (`ClockOrdered`). `LimiterClock.BoundSurvivesSkewIff` says exactly when it is needed: a limit of one never is
  exceeded, every larger one can be as soon as a reading steps back at all. `Budget` reads wall time under its lock,
  which can step back as well (`internal/reliability/reliability.go:56`). That no accounting window exceeds its quota
  needs no assumption; the bound on any minute survives readings that step back by a nanosecond, but not by two
  (`BudgetClock.TwiceSurvivesSkewIff`).
* A context is described by the check from which on it is cancelled. The checks of one hybrid operation are
  numbered in program order: 0 on entry, 1 before the vectors are removed, 2 before the chunks are removed, 3
  before the upsert, 4 before the lexical add.

## Where the code does less than one might expect

Each of these is proved, with the exact condition or a witness:

* `SplitDocument` does not terminate on every text once the overlap exceeds a quarter of the window size, although
  it accepts any smaller than the window (`SplitterFacts.FinishesIffSmallOverlap`). If the overlap exceeds a quarter
  by more than one, the next window of some text would start before the first rune
  (`SplitterFacts.StartsBeforeTextIff`), and the source then indexes out of range, a run-time panic. The method of the
  model leaves its loop when the next window would not start further on, and says so in its result; the source has
  no such test.
* Compaction of an already summarised history does not retreat over tool results, unlike `memory.Compact`, and can
  leave a result without its call (`AgentHistory.TrimBacked`, `AgentHistory.LimitTrimOrphans`).
* `memory.Compact` can return more messages than it was given (`Compaction.CompactCanGrow`), never on finished turns.
* A summary created by the message-limit stage is not measured again, so the first transcript can exceed the token
  budget (`AgentHistory.FirstCallFitsBudget`).
* Compaction can lose turns that no summarizer has seen, in two ways. A compacting run overwrites turns that another
  run appended meanwhile (`AgentLossWitnesses.CompactionLosesConcurrentTurn`). And a history that already starts with
  a summary is trimmed without asking the summarizer, so runs that take turns lose what came after the first summary
  (`AgentLossWitnesses.CompactingTwiceLosesTurn`). These are the only ways: every message ever appended is stored or
  was given to the summarizer throughout if and only if no run replaces the session after an append that came between
  its listing and its replacement, nor by a history it has trimmed behind a summary (`AgentLosses.NothingLostIff`).
  Letting the runs of a session take turns rules out the first (`AgentLosses.SerialisedLosesIff`).
* Waiting exactly the returned retry time is not enough for the limiter; the Retry-After header is
  (`LimiterFacts.RetryAfterIsExact`). One minute can see twice the budget (`Budget.TwiceIsReached`), and
  more if the clock steps back (`BudgetClock.TwoNanosecondsBreak`).
* A cancellation in the middle of a hybrid operation can separate its halves (`HybridFacts.AgreementStep`), and
  over a file a rejected upsert can as well (`PersistentFacts.FileAgreementStep`), with leftovers that reach the
  disk later (`PersistentFacts.LeftoversReachDisk`) and that a restart then takes for the document
  (`PersistentFacts.LeftoversAfterRestart`). Over whole runs these are the only ways
  (`HybridFacts.AgreementOverRuns`, `PersistentFacts.FileAgreementOverRuns`).
* Names, IDs and types of streamed tool calls are not concatenated: one that is cut over two deltas is truncated
  (`StreamingFacts.NameKeptIffOnePart`).
* Registration does not look at item schemas, so a registered schema can fail as a schema at the first call with an
  element (`ToolRegistry.BadItemsRegister`, `ToolRegistry.BadItemsFail`). Whether any input can bring that about is
  decided by the schema alone (`SchemaFacts.SomeValueRaisesIff`).

## Model

| member | source | states |
|---|---|---|
| MemoryStore.InMemory.Append | internal/memory/memory.go:29-35 | the session grows by exactly the given messages, no other session changes |
| MemoryStore.InMemory.List | internal/memory/memory.go:36-42 | the stored messages, none for a session never written |
| MemoryStore.InMemory.Replace | internal/memory/memory.go:43-48 | the session becomes the given messages, no other session changes |
| Compaction.EstimateTokens | internal/memory/compact.go:43-53 | the loop computes the per-message sum of 4 plus a quarter of the runes, rounded up |
| Compaction.TokensConcat | internal/memory/compact.go:43-53 | estimates are additive over concatenation |
| Compaction.TokensPositive | internal/memory/compact.go:43-53 | each message costs at least 4, so dropping messages strictly lowers the estimate |
| HistoryFacts.EstimateIs | internal/memory/compact.go:43-53 | a message counts 4 and a quarter, rounded up, of the runes of its content, call ID and the IDs, names and arguments of its calls |
| Compaction.Compact | internal/memory/compact.go:16-39 | the retreat loop finds the specified cut; errors and the untouched case as specified |
| Compaction.CutIsUnique | internal/memory/compact.go:23-30 | the cut is determined by what it is: only tool results lie between it and the start, and it is not one unless the retreat ran out |
| Compaction.CompactLength | internal/memory/compact.go:16-39 | the result has exactly `limit` messages plus the retreat distance, and outgrows its input exactly when messages 1 up to the start of the retreat are all tool results |
| Compaction.CompactCutIsBest | internal/memory/compact.go:23-30 | on a paired history the cut is the latest one within the limit that leaves every kept tool result with its call, and at least 1 if the first message has no calls |
| Compaction.CompactTurns | internal/memory/compact.go:16-39 | on complete turns the cut is at least 1, the length between the limit and the input length, and calls and results stay paired both ways |
| Compaction.CompactCanGrow | internal/memory/compact.go:23-38 | a history that opens on an assistant message with calls can grow by one message |
| Compaction.CompactToTokenBudget | internal/memory/compact.go:56-78 | outcome as specified, and on success the estimate is within the budget |
| AgentHistory.CompactTokenHistory | internal/agent/agent.go:260-275 | terminates, and returns the history trimmed at the first fitting index, or delegates |
| AgentHistory.TrimIsLongest | internal/agent/agent.go:264-273 | an existing summary is kept with the longest suffix that fits; the error means that the summary alone does not |
| AgentHistory.CompactHistory | internal/agent/agent.go:277-295 | outcome of the message-limit compaction on every branch |
| AgentHistory.TrimBacked | internal/agent/agent.go:264-292 | trimming keeps every call answered and the history a summary and a suffix of its turns, and keeps results backed exactly when the kept part does not start on a tool result |
| AgentHistory.LimitTrimOrphans | internal/agent/agent.go:284-292 | witness: a trimmed history of one complete turn has a tool result without its call |
| HistoryFacts.LimitKeepsNewest | internal/agent/agent.go:284-292 | behind a summary the limit keeps exactly `limit` messages: the summary and the newest ones |
| HistoryFacts.LimitKeepsSuffix | internal/memory/compact.go:16-39 | otherwise a summary of the messages before the cut, and all from the cut on |
| HistoryFacts.BudgetKeepsLast | internal/memory/compact.go:56-78 | a history over the budget becomes a summary of all but its last message, and that message |
| HistoryFacts.UntouchedIff | internal/agent/agent.go:154-184 | a history reaches the model as listed if and only if with the input it is within the budget and the limit |
| HistoryFacts.TokenCompactionFails | internal/agent/agent.go:260-275 | which error means what |
| AgentHistory.TokenStageMoves | internal/agent/agent.go:154-170 | what the token stage makes of a history with a true account has a true account: without a summary, everything before the kept part was given to the summarizer that wrote the new one; behind a summary, at least one message more is dropped and the summarizer sees nothing |
| AgentHistory.LimitStageMoves | internal/agent/agent.go:171-183 | the same for the message-limit stage |
| AgentHistory.FirstCallFitsBudget | internal/agent/agent.go:154-184 | the first transcript is within the token budget for all summarizers if and only if the limit stage is not about to create a summary of a history the token stage let through |
| AgentRun.ValidateToolCalls | internal/agent/agent.go:414-436 | reports the first offending call, and nothing exactly when all are acceptable |
| CallChecks.AcceptedIffSound | internal/agent/agent.go:414-436 | calls are run if and only if each has an ID, type `function`, a name that is not blank and blank or valid arguments, and no two share an ID |
| CallChecks.FirstOffence | internal/agent/agent.go:414-436 | otherwise the first that is not is reported, with what is wrong with it |
| AgentRun.Agent.Run | internal/agent/agent.go:146-198 | both stages with their store writes, then the loop: result, trace and store satisfy the run specification |
| AgentRun.Agent.Loop | internal/agent/agent.go:199-258 | every model call saw the history, the input and the rounds so far; the last reply decides the result; the store changes on success only, by one append |
| AgentRun.Agent.RunTools | internal/agent/agent.go:238-256 | the block of one round: the assistant message and one tool message per call, in order, with its ID |
| AgentRun.RunAccounting | internal/agent/agent.go:199-258 | at most maxToolRounds + 1 model calls, tools only in the first maxToolRounds rounds; each number of the usage is the integer sum over all calls, a streamed text all deltas in order, and model, finish reason and plain text those of the last reply |
| AgentRun.LoopOutcome | internal/agent/agent.go:199-258 | the last reply decides the ending: failed, an answer, more calls than rounds, or calls that cannot be run |
| TurnFacts.TurnCarries | internal/agent/agent.go:184-256 | every message of a stored turn, with role, content, call ID and calls, in terms of input, replies, tool outputs and answer |
| TurnFacts.SummaryCarries | internal/memory/compact.go:34-38 | a summary is a system message under a fixed heading, and is recognised by just that |
| AgentRun.RunSessionEffect | internal/agent/agent.go:149-258 | on success the prepared history plus exactly one turn; on failure the old history or a compacted form; other sessions unchanged |
| AgentRun.NoEarlyEnd | internal/agent/agent.go:199-258 | the loop never stops on a reply that would have caused another round |
| AgentRun.RunIsDeterministic | internal/agent/agent.go:146-258 | the run specification determines result, trace and store |
| AgentRun.RunKeepsSession | internal/agent/agent.go:146-258 | a session that is its turns' messages, or a summarizer's answer for a first part of them before a later part, stays so, plus the new turn on success; every transcript sent has all calls answered; the first fits the budget unless a late summary was written |
| AgentInvariant.InvariantStep | internal/agent/agent.go:146-295 | every step of every run keeps: the accounts of stored sessions and of the runs' own histories are true, and the turns they go back to were appended, in that order |
| AgentInvariant.StoredSessionsAnswered | internal/agent/agent.go:146-295 | in every interleaving, a stored session is what its account says, and each stored assistant message with calls is followed at once by one tool message per call, same IDs, same order |
| AgentInvariant.UncompactedIsLog | internal/agent/agent.go:224-226 | a session no run has replaced is the concatenation of finished turns in append order |
| AgentInvariant.SentTranscriptsAnswered | internal/agent/agent.go:184-258 | in every interleaving, every transcript about to be sent has all calls answered, within the tool rounds |
| AgentAccounts.StepHistory | internal/agent/agent.go:149-226 | a step extends log and account by an appended turn, or a replacement brings back the account of what its run listed and compacted |
| AgentAccounts.StepAccount | internal/agent/agent.go:154-292 | the history of a run has lost messages unseen from the step that trims it behind a summary on, and not before |
| AgentAccounts.ListingStays | internal/agent/agent.go:149-183 | what a run lists it keeps until it ends, in full or shown to a summarizer as long as it does not trim, and it lists once |
| AgentLosses.CompleteSession | internal/agent/agent.go:149-226 | a complete session is the messages of its whole log, or what a summarizer answered for the first of them followed by all others |
| AgentLosses.NothingLostIff | internal/agent/agent.go:149-292 | up to any point of any behaviour, a session is complete throughout if and only if no run replaced it after an append between that run's listing and the replacement, nor by a history it had trimmed behind a summary |
| AgentLosses.SerialisedLosesIff | internal/agent/agent.go:149-292 | if the runs of a session never overlap, it is complete throughout if and only if none stores a history it has trimmed behind a summary |
| AgentLossWitnesses.CompactionLosesConcurrentTurn | internal/agent/agent.go:171-183 | witness: a reachable store whose session no longer accounts for a turn appended between another run's List and Replace |
| AgentLossWitnesses.CompactingTwiceLosesTurn | internal/agent/agent.go:284-292 | witness: runs that never overlap reach a store that is the summary of the first turn alone, although two turns were appended |
| AgentBudget.FirstTranscriptFitsBudget | internal/agent/agent.go:154-184 | in every interleaving the first transcript of a run fits its token budget, unless the limit stage summarized a listing the token stage let through |
| AgentRefinement.RunIsABehaviour | internal/agent/agent.go:146-258 | every run the sequential specification allows is a sequence of protocol steps with the same store and ending |
| Splitter.FindBoundary | internal/knowledge/knowledge.go:76-83 | the end of the last boundary rune after start + end/4, or end |
| Splitter.LastBoundaryUnique | internal/knowledge/knowledge.go:76-83 | that description determines the boundary |
| Splitter.CutWindow | internal/knowledge/knowledge.go:51-59 | the end of one window: past its start, within the text and the maximum |
| Splitter.SplitDocument | internal/knowledge/knowledge.go:33-49 | errors in order, defaults, and otherwise the chunks of the window walk |
| Splitter.SplitRunes | internal/knowledge/knowledge.go:50-74 | the loop emits one chunk for each window that is not blank, and stops where the walk does |
| SplitterFacts.SmallOverlapFinishes | internal/knowledge/knowledge.go:50-72 | with an overlap of at most a quarter of the maximum every window advances and the walk ends |
| SplitterFacts.LargeOverlapStalls | internal/knowledge/knowledge.go:55-71 | for every larger overlap below the maximum there is a text whose second window starts at 0 again |
| SplitterFacts.StartsBeforeTextIff | internal/knowledge/knowledge.go:60-71 | some text makes the next start negative if and only if the overlap exceeds a quarter of the maximum by more than one |
| SplitterFacts.FinishesIffSmallOverlap | internal/knowledge/knowledge.go:44-72 | the walk ends on all texts if and only if the overlap is at most a quarter of the maximum |
| SplitterFacts.SplitFinishesIffSmallOverlap | internal/knowledge/knowledge.go:33-74 | the same for whole documents and options, defaults included |
| SplitterFacts.WalkTiles | internal/knowledge/knowledge.go:50-72 | windows run from the start to the end, are at most the maximum long, share exactly the overlap, and advance |
| SplitterFacts.WindowsReassemble | internal/knowledge/knowledge.go:50-72 | without the shared runes the windows concatenate to the trimmed content |
| SplitterFacts.ChunksMatchWindows | internal/knowledge/knowledge.go:60-67 | each chunk is the trimmed window its ordinal names, ordinals strictly increase, windows without a chunk are blank |
| SplitterFacts.NonSpaceIsEmitted | internal/knowledge/knowledge.go:60-67 | every rune that is not white space is in an emitted chunk |
| SplitterFacts.SplitKeepsNonSpace | internal/knowledge/knowledge.go:50-72 | without overlap, the chunks hold the runes of the content that are not white space, in order, each once |
| SplitterFacts.SplitChunkFacts | internal/knowledge/knowledge.go:61-66 | at least one chunk, none blank, all keyed by the document, no key twice |
| ChunkFacts.WindowEndIs | internal/knowledge/knowledge.go:51-83 | a window ends at the end of the text, after the last white space or one of six sentence marks in range, or at its maximum if there is none |
| ChunkFacts.ChunkCarries | internal/knowledge/knowledge.go:60-67 | every chunk has the title and metadata of its document, `<document ID>:<ordinal>` as its ID, and a trimmed stretch of the content as its text |
| ChunkFacts.SplitRefuses | internal/knowledge/knowledge.go:33-49 | which documents and options are refused with which error; the maximum is 1200 by default |
| ChunkFacts.DecimalIs | internal/knowledge/knowledge.go:63-63 | the ordinal is written in decimal without leading zeros |
| Text.SpaceIff | internal/knowledge/knowledge.go:78-78 | the 25 runes that are white space |
| ChunkKeys.KeyInjective | internal/knowledge/knowledge.go:63-63 | document ID and ordinal can be read off a chunk ID, even if document IDs contain colons |
| Tokenizer.Tokenize | internal/knowledge/knowledge.go:209-248 | the two-buffer loop yields the tokens of the maximal runs, never with both buffers in use |
| Tokenizer.TokensAreRuns | internal/knowledge/knowledge.go:209-248 | a token is a word run, a Han run, one of its runes or adjacent pairs, and nothing else is a token |
| Tokenizer.RunTokens | internal/knowledge/knowledge.go:219-231 | a Han run of n runes gives 2n tokens |
| TokenFacts.HanTokensCounted | internal/knowledge/knowledge.go:219-231 | the tokens of a Han run are the run, its runes and its adjacent pairs, as often as they occur |
| TokenFacts.OtherTokensCounted | internal/knowledge/knowledge.go:212-218 | a word is one token, and nothing else makes any |
| Tokenizer.ScoreChunk | internal/knowledge/knowledge.go:250-265 | the counting loops compute the saturated score of the terms |
| Tokenizer.ScorePositive | internal/knowledge/knowledge.go:256-264 | scores are not negative, and positive exactly when a term is a token of the text |
| TokenFacts.TermAdds | internal/knowledge/knowledge.go:256-264 | a term found n times adds 2.2 n / (n + 1.2) |
| TokenFacts.ScoresAdd | internal/knowledge/knowledge.go:256-264 | scores add up over the terms of a query |
| TokenFacts.MoreScoresHigher | internal/knowledge/knowledge.go:259-262 | more occurrences score higher, always below 2.2 |
| Tokenizer.PositiveScoreIffShared | internal/knowledge/knowledge.go:209-265 | a positive score means a shared Han rune or a shared whole alphanumeric run, and conversely |
| Scoring.ComputeNorm | internal/knowledge/vector.go:230-236 | the root of the sum of squares |
| Scoring.ComputeCosine | internal/knowledge/vector.go:238-248 | the quotient of dot product and norms, 0 for a zero norm |
| Scoring.CauchySchwarz | internal/knowledge/vector.go:230-248 | the squared dot product is at most the product of the squared norms, for vectors of any length |
| Scoring.CosineBounded | internal/knowledge/vector.go:238-248 | a cosine lies in [-1, 1] |
| Scoring.CosineIs | internal/knowledge/vector.go:230-248 | cosine times both norms is the dot product; norms are roots of squared sums |
| Scoring.DotSnoc | internal/knowledge/vector.go:243-246 | each position adds the product of its two numbers to the dot product |
| Scoring.CosineSelf | internal/knowledge/vector.go:238-248 | a vector that is not zero has cosine 1 with itself |
| Scoring.NormZero | internal/knowledge/vector.go:57-57 | a norm is zero exactly for zero vectors |
| Scoring.NormalizeBounded | internal/knowledge/vector.go:250-255 | a normalized score lies in [0, 1) |
| Scoring.LexicalPartBounded | internal/knowledge/vector.go:209-209 | the lexical part lies in [0, 1 - alpha), and is 0 when alpha is 1 |
| Scoring.VectorPartBounded | internal/knowledge/vector.go:216-216 | the vector part of a cosine lies in [0, alpha] |
| Scoring.LexicalPartIs | internal/knowledge/vector.go:209-209 | x (s + 1) = (1 - alpha) s for a positive score s, otherwise 0 |
| Scoring.VectorPartIs | internal/knowledge/vector.go:216-216 | affine in the cosine, 0 at -1 and alpha at 1 |
| Ranking.StringLessTotal | internal/knowledge/knowledge.go:176-176 | the ID comparison is a strict total order |
| Ranking.StringLessIff | internal/knowledge/knowledge.go:176-176 | it compares rune by rune: at the first difference, or at the end of a proper prefix |
| Ranking.BeforeIsStrict | internal/knowledge/knowledge.go:174-179 | the comparison of both searches is a strict order |
| Ranking.Rank | internal/knowledge/knowledge.go:174-183 | sorting and truncating the matches gives a strictly ordered, duplicate-free list of the effective length that no omitted match precedes |
| Ranking.TopIsUnique | internal/knowledge/knowledge.go:165-183 | that list is unique, so it does not depend on the map's iteration order |
| Sorting.SortSlice | internal/knowledge/vector.go:95-100 | a permutation without inversions, the contract of the library sort |
| IndexTypes.MatchesMetadata | internal/knowledge/knowledge.go:200-207 | all filter entries match, a nil map matches only the empty filter, a missing key reads as empty |
| LexicalIndex.InMemoryIndex.Add | internal/knowledge/knowledge.go:115-131 | stores exactly the chunks of the document or changes nothing; no chunk of a split document is refused |
| LexicalIndex.InMemoryIndex.AddChunks | internal/knowledge/knowledge.go:125-129 | succeeds exactly when every chunk is acceptable |
| LexicalIndex.InMemoryIndex.AddChunk | internal/knowledge/knowledge.go:139-145 | stores a copy under the chunk's ID unless ID or text is missing |
| LexicalIndex.InMemoryIndex.RemoveDocument | internal/knowledge/knowledge.go:186-198 | removes exactly the chunks of the document |
| LexicalIndex.InMemoryIndex.SearchWithFilter | internal/knowledge/knowledge.go:151-184 | errors in order; otherwise stored chunks that hold each value of the filter and share a Han rune or a whole word with the query, by falling scores and rising IDs, all of them unless the limit, 10 by default, cuts the list |
| VectorIndex.IsUsable | internal/knowledge/vector.go:57-57 | accepts exactly the vectors that are not empty and not all zeros |
| VectorIndex.InMemoryVectorIndex.Upsert | internal/knowledge/vector.go:49-67 | all entries or none, with the first bad position in the error |
| VectorIndex.InMemoryVectorIndex.RemoveDocument | internal/knowledge/vector.go:107-119 | removes exactly the entries of the document |
| VectorIndex.InMemoryVectorIndex.SearchVectorWithFilter | internal/knowledge/vector.go:73-105 | errors in order; otherwise stored chunks that hold each value of the filter and have a vector of the query's dimension, by falling cosines and rising IDs, all of them unless the limit cuts the list |
| Fusion.Fuse | internal/knowledge/vector.go:206-227 | each ID once, with (1 - alpha) s / (s + 1) for a lexical score s and alpha (c + 1) / 2 for a cosine c, by falling scores, all of them unless a positive limit cuts the list |
| HybridIndex.HybridIndex.RemoveDocument | internal/knowledge/vector.go:167-177 | state and outcome for every point of cancellation |
| HybridIndex.HybridIndex.Add | internal/knowledge/vector.go:145-165 | state and outcome for every failure and point of cancellation |
| HybridIndex.HybridIndex.SearchWithFilter | internal/knowledge/vector.go:183-228 | errors in order; otherwise a fusion of two lists that are full answers of the two searches: every result is a stored chunk whose metadata holds each value of the filter, with its fused score in [0, 1], by falling scores |
| Fusion.FusedBounded | internal/knowledge/vector.go:206-222 | fused scores lie in [0, 1], below 1 - alpha without a vector part |
| Fusion.NearerScoresHigher | internal/knowledge/vector.go:206-227 | of two results with equal lexical scores, the one of higher cosine has the higher fused score, and conversely, if alpha is positive |
| Fusion.MoreTermsScoreHigher | internal/knowledge/vector.go:206-227 | of two results with equal cosines, the one of higher lexical score has the higher fused score, if alpha is below 1 |
| HybridIndex.SearchSucceedsIff | internal/knowledge/vector.go:183-205 | when a search succeeds, and which error means what |
| HybridIndex.AdditionOutcome | internal/knowledge/vector.go:145-165 | when an Add succeeds, and which error means what |
| HybridFacts.StepByDocument | internal/knowledge/vector.go:145-177 | every operation, however it ends, keeps keys consistent and touches only the chunks of its document |
| HybridFacts.AgreementStep | internal/knowledge/vector.go:145-177 | from agreeing halves an operation leaves agreeing halves if and only if it was not cancelled between the two removals of an indexed document or between the two insertions |
| HybridFacts.AlwaysConsistent | internal/knowledge/vector.go:145-177 | after any operations, cancelled anywhere, every chunk is stored under its document's key |
| HybridFacts.IndexIsItsDocuments | internal/knowledge/vector.go:145-177 | after any run without such cancellations both halves hold exactly the chunks of the documents indexed |
| HybridFacts.AgreementOverRuns | internal/knowledge/vector.go:145-177 | the halves hold the same IDs and chunks after every operation of a run, failed embeddings and rejected upserts included, if and only if none was so cancelled |
| HybridFacts.LiveContextsNeverCut | internal/knowledge/vector.go:145-177 | which is the case if no context is cancelled inside an operation |
| HybridFacts.AddRepairs | internal/knowledge/vector.go:145-165 | from any consistent state a successful Add leaves exactly the document's chunks in both halves and other documents untouched; full agreement exactly if the others agreed |
| HybridFacts.AddKeepsVectors | internal/knowledge/vector.go:145-165 | chunk i carries vector i, entries of other documents are unchanged |
| HybridFacts.InterruptedRemoval | internal/knowledge/vector.go:167-177 | a removal cancelled in the middle leaves the document's text without its vectors |
| PersistentIndex.FileVectorIndex.Upsert | internal/knowledge/persistent.go:49-65 | memory changes up to the first bad vector, the disk only on success |
| PersistentIndex.FileVectorIndex.RemoveDocument | internal/knowledge/persistent.go:108-120 | removes exactly the entries of the document, in memory and on disk |
| PersistentIndex.NewPersistentHybridIndex | internal/knowledge/persistent.go:154-172 | errors in order; otherwise the vector half is what the file holds and the lexical half its chunks under their own IDs, under the same keys if and only if the file is keyed by chunk ID |
| PersistentIndex.Rebuild | internal/knowledge/persistent.go:165-170 | in any order, refused exactly if some chunk has no ID or text |
| PersistentIndex.RebuiltInStep | internal/knowledge/persistent.go:165-171 | the rebuilt half agrees with the entries if and only if those are keyed by chunk ID |
| PersistentHybrid.FileHybridIndex.RemoveDocument | internal/knowledge/vector.go:167-177 | state in memory and on disk, and outcome, for every point of cancellation |
| PersistentHybrid.FileHybridIndex.Add | internal/knowledge/vector.go:145-165 | the same for every failure and point of cancellation, rejected upserts with their leftovers included |
| PersistentHybrid.OutcomeAsInMemory | internal/knowledge/vector.go:145-177 | over a file an operation succeeds or fails exactly as in memory, with the same lexical half |
| PersistentIndex.OpenFails | internal/knowledge/persistent.go:154-172 | which error of opening means what |
| PersistentFacts.AlwaysSound | internal/knowledge/persistent.go:49-172 | after any events everything in memory and on disk is keyed, readable and acceptable |
| PersistentFacts.RestartRestoresAgreement | internal/knowledge/persistent.go:154-172 | after any operations, failures, cancellations and restarts, a restart succeeds and the halves agree again |
| PersistentFacts.FileAgreementStep | internal/knowledge/persistent.go:58-64 | exactly when an operation separates the halves over a file, partial upserts included |
| PersistentFacts.FileAgreementOverRuns | internal/knowledge/persistent.go:49-172 | over any history, restarts included, the halves agree after every event if and only if no operation separates them |
| PersistentFacts.FileIsItsDocuments | internal/knowledge/persistent.go:49-172 | memory, disk and lexical half then hold exactly the chunks of the documents indexed |
| PersistentFacts.LeftoversReachDisk | internal/knowledge/persistent.go:49-120 | leftovers of a rejected upsert are written by the next removal of another document |
| PersistentFacts.LeftoversAfterRestart | internal/knowledge/persistent.go:154-172 | a restart then indexes some, but not all, chunks of a document whose Add failed |
| Limiter.SlidingWindowLimiter.constructor | internal/api/access.go:67-75 | a limit of at least 1, and a positive window, a minute by default |
| Limiter.SlidingWindowLimiter.Allow | internal/api/access.go:76-92 | prunes, decides and records as the decision function says |
| LimiterFacts.AdmitsByFullLog | internal/api/access.go:76-92 | with ordered clock readings for its key, admitted exactly when fewer than `limit` of all past admissions of the key lie in the closed window |
| LimiterFacts.AtMostLimitPerWindow | internal/api/access.go:76-92 | with ordered clock readings for a key, no closed interval of the window's length holds more than `limit` of its admissions |
| LimiterFacts.RetryAfterIsExact | internal/api/http.go:98-107 | without another admission of its key, a denied client is admitted exactly when it comes strictly later than the returned wait, hence after the header's seconds |
| LimiterFacts.HeaderIsLeast | internal/api/http.go:98-107 | the header is the least whole number of seconds above the wait |
| LimiterClock.SingleNeedsNoOrder | internal/api/access.go:76-92 | with a limit of one the bound holds for readings in any order |
| LimiterClock.LateReaderBreaksLimit | internal/api/access.go:76-92 | for every larger limit and every window, one reading older by a nanosecond gets one admission too many into a window |
| LimiterClock.BoundSurvivesSkewIff | internal/api/access.go:76-92 | all histories whose readings for a key step back by at most a given skew keep the bound if and only if the limit is one or the skew is zero |
| Budget.Budget.Allow | internal/reliability/reliability.go:53-77 | restarts, checks and charges as the decision function says |
| Budget.UsageIsSpent | internal/reliability/reliability.go:57-75 | a tenant's usage is the sum of its admissions since the last restart, whatever the clock does |
| BudgetDecisions.SpentIsLogged | internal/reliability/reliability.go:57-75 | what is spent is the number, the tokens and the cost of the calls charged since the last restart |
| BudgetDecisions.DecidedByLog | internal/reliability/reliability.go:53-77 | a tenant without a quota is let through; one with a quota is refused exactly if those calls leave no room for this one under an enabled quota, with the first such quota in the error |
| Budget.WindowWithinQuota | internal/reliability/reliability.go:66-75 | no accounting window exceeds an enabled quota, whatever the clock does |
| Budget.TwoWindowsCover | internal/reliability/reliability.go:57-60 | with readings that step back by at most a nanosecond, the admissions of any minute come from at most two accounting windows |
| Budget.AnyMinuteWithinTwice | internal/reliability/reliability.go:53-77 | with such readings, every half-open minute admits at most twice each enabled quota |
| Budget.TwiceIsReached | internal/reliability/reliability.go:57-75 | for every enabled quota there is a history with an ordered clock and charges of at least zero in which a minute admits exactly twice of it |
| BudgetClock.TwoNanosecondsBreak | internal/reliability/reliability.go:56-60 | for every quota with something enabled there is a history with readings that step back by two nanoseconds in which a minute exceeds twice the quota |
| BudgetClock.TwiceSurvivesSkewIff | internal/reliability/reliability.go:53-77 | all histories whose readings step back by at most a given skew keep twice the quota in every minute if and only if the skew is a nanosecond at most |
| TaskQueue.Queue.Announce | internal/tasks/queue.go:50-53 | an empty ID is refused, otherwise the task is recorded as queued |
| TaskQueue.Queue.Send | internal/tasks/queue.go:54-56 | the task joins the end of the channel |
| TaskQueue.Queue.Receive | internal/tasks/queue.go:66-66 | the worker takes the oldest task |
| TaskQueue.Queue.MarkRunning | internal/tasks/queue.go:72-73 | the task is recorded as running |
| TaskQueue.Queue.Report | internal/tasks/queue.go:76-80 | the task is recorded as completed, or failed if its execution returned an error |
| TaskQueue.ExecutionIsReported | internal/tasks/queue.go:74-80 | a task whose execution failed is recorded as failed, any other as completed |
| TaskQueue.Queue.Get | internal/tasks/queue.go:83-88 | the record of a task, if there is one |
| TaskQueue.StepsAreMethods | internal/tasks/queue.go:49-82 | each step of the interleaving changes channel and table as the corresponding method does, under the same guard |
| TaskQueue.Queue.Set | internal/tasks/queue.go:82-82 | one record is written, under its own ID |
| TaskQueue.InvariantStep | internal/tasks/queue.go:49-82 | every step keeps channel, workers, executions and records consistent |
| TaskQueue.AcceptedInOnePlace | internal/tasks/queue.go:49-82 | an accepted task is in exactly one of channel, worker and finished; the channel is bounded and first in, first out |
| TaskQueue.ExecutedAtMostOnce | internal/tasks/queue.go:61-81 | no task is executed twice or is on two workers |
| TaskQueue.RecordsMoveForward | internal/tasks/queue.go:53-80 | records only go from queued to running to completed or failed |
| TaskQueue.FinishedStaysFinished | internal/tasks/queue.go:53-80 | a finished record is never overwritten |
| TaskQueue.SendFirstOverwritesFinished | internal/tasks/queue.go:53-55 | witness: sending before recording would overwrite a finished record |
| Streaming.Aggregate | internal/provider/provider.go:380-439 | stops at the end, at a line it cannot decode or at a refused delivery; on success finish reason, model and usage are those of the last line read that carries one, the content is the texts of the first choices in order, all of them delivered, and the calls are those of their fragments |
| StreamEvents.ConsumedIn | internal/provider/provider.go:380-424 | how far the lines are read, and what of them is folded and delivered |
| Streaming.FoldFragments | internal/provider/provider.go:425-432 | the table holds, for each index that occurs, its pieces joined |
| Streaming.OrderedToolCalls | internal/provider/provider.go:457-475 | one call per index in increasing order, type `function` by default |
| Streaming.LabelsOccur | internal/provider/provider.go:457-468 | the labels are the indexes that occur, in increasing order |
| Streaming.SameLabels | internal/provider/provider.go:465-465 | sorting has one result, whatever order the map yields its keys in |
| StreamingFacts.SameCalls | internal/provider/provider.go:425-438 | streams whose pieces join to the same, index by index, give the same calls |
| StreamingFacts.InterleavingIndependent | internal/provider/provider.go:425-438 | any interleaving that keeps the order within each call gives the same calls |
| StreamingFacts.SwapKeepsCalls | internal/provider/provider.go:425-438 | adjacent pieces of different calls may be swapped |
| StreamingFacts.JoinKeepsFirst | internal/provider/provider.go:425-455 | of IDs, types and names the first that is not empty is kept; arguments are put together in order |
| StreamingFacts.FragmentationFoldsBack | internal/provider/provider.go:425-475 | a list of calls, its arguments cut and its pieces interleaved in any way, is given back in index order, with `function` for a type never sent |
| StreamingFacts.NameKeptIffOnePart | internal/provider/provider.go:427-429 | a name survives if and only if at most one delta carries a part of it |
| Embedding.Reassemble | internal/provider/embedding.go:103-118 | succeeds exactly when the indexes are a permutation of 0..n-1 and no vector is empty, each vector then at its index; otherwise the first failing check |
| Embedding.CoveredIsPermutation | internal/provider/embedding.go:103-118 | pigeonholes: n valid items that cover n positions repeat none, so nothing was overwritten |
| Embedding.DistinctIsPermutation | internal/provider/embedding.go:103-118 | among n valid items a repeated index is the only way to fail |
| Embedding.OrderIndependent | internal/provider/embedding.go:107-112 | the order of the response does not matter |
| ToolSchema.UnmarshalSchema | internal/tool/tool.go:142-169 | accepts exactly the well-formed schemas, property schemas included |
| ToolSchema.EnumContains | internal/tool/tool.go:274-281 | membership up to deep equality |
| ToolSchema.ValidateValue | internal/tool/tool.go:189-243 | for whatever orders the runtime yields names in: the first problem in source order, none exactly if the value satisfies the schema, a schema problem only if validation can get as far as a bad schema |
| SchemaKeywords.TypeKeyword | internal/tool/tool.go:245-272 | what each of the nine type names accepts, from the raw schema on; any other name accepts nothing |
| SchemaKeywords.EnumKeyword | internal/tool/tool.go:198-200 | an enumeration accepts exactly its values, an empty one everything |
| SchemaKeywords.RequiredKeyword | internal/tool/tool.go:208-212 | an object is accepted if and only if it has every required member |
| SchemaKeywords.PropertiesKeyword | internal/tool/tool.go:213-228 | members with a schema have to be accepted by it, others are refused exactly if additionalProperties is false |
| SchemaKeywords.ItemsKeyword | internal/tool/tool.go:229-240 | every element has to be accepted by the item schema |
| SchemaKeywords.KeywordGiven | internal/tool/tool.go:142-169 | what each of the seven keywords may be given; no other is known |
| SchemaKeywords.NullKeyword | internal/tool/tool.go:142-169 | a null keyword, a null schema and an empty one restrict nothing |
| SchemaKeywords.RequiredNull | internal/tool/tool.go:142-169 | a null among the required names asks for the member with the empty name |
| ToolSchema.AcceptedIffSatisfies | internal/tool/tool.go:189-243 | the order of names does not decide whether a value is accepted: it is, in any of them, if and only if it satisfies the schema |
| SchemaFacts.RaisesIffReported | internal/tool/tool.go:189-243 | validation can get as far as a bad schema if and only if in some order of names it reports the schema error |
| SchemaFacts.AcceptedIffConformsEverywhere | internal/tool/tool.go:189-272 | a value is accepted if and only if it conforms to the schema at every location the schema reaches |
| SchemaFacts.OnlyItemsAreBad | internal/tool/tool.go:162-168 | under a registered schema, the bad schemas met are exactly item schemas with an element beneath |
| SchemaFacts.SomeValueRaisesIff | internal/tool/tool.go:189-243 | a condition on the schema alone decides whether some value makes validation report a schema error in some order of names |
| SchemaFacts.RaisesMeets | internal/tool/tool.go:189-243 | getting there means meeting a bad schema |
| SchemaFacts.BadSchemaRejects | internal/tool/tool.go:189-193 | a value that meets a bad schema is never accepted |
| ToolRegistry.Registry.Register | internal/tool/tool.go:32-44 | registers exactly valid definitions with a new name, and changes nothing otherwise |
| ToolRegistry.Registry.Validate | internal/tool/tool.go:104-122 | accepts exactly the registrable definitions |
| ToolRegistry.RegistrableIff | internal/tool/tool.go:104-122 | a definition registers if and only if it has such a name, a description that is not blank, a handler, and a well-formed schema of type object |
| ToolRegistry.NameMatchesIff | internal/tool/tool.go:14-14 | a name is 1 to 64 ASCII letters, digits, underscores, dots and hyphens |
| ToolRegistry.Registry.Invoke | internal/tool/tool.go:69-92 | the handler runs exactly on objects that satisfy the schema; outcomes as the handler and its output say; a schema problem lies beneath items, of a schema that can raise one |
| ToolRegistry.EmptyStandsFor | internal/tool/tool.go:69-92 | a call without input is one with an empty object, and a handler without output answers null |
| ToolRegistry.HandlerDecides | internal/tool/tool.go:80-92 | once the handler runs, it decides the outcome: failed, not JSON, or its output |
| ToolRegistry.BadItemsRegister | internal/tool/tool.go:142-169 | witness: a definition with a bad item schema registers |
| ToolRegistry.BadItemsPassEmpty | internal/tool/tool.go:229-239 | a call with no element under it is accepted |
| ToolRegistry.BadItemsFail | internal/tool/tool.go:229-239 | every call with an element under it fails on the schema |

## Left out

- Concurrency inside the knowledge indexes: each operation of an index is modelled under its lock; two hybrid operations that interleave are not modelled, and `HybridIndex` has no lock of its own.
- Copies: chunks, metadata, vectors and messages are values, so the defensive clones of the code have no counterpart.
- Store and queue lifetimes: failing stores, stores without Replace, tool timeouts, authorizers, audit, events and telemetry of a run are not modelled; a failing tool is one whose output is the error object the agent records.
- Budget: limits that change while it runs and the time zone of the readings are not modelled.
- TaskQueue: timestamps and the stored error are left out; task IDs are assumed distinct, as a resubmitted ID would rewrite its record.
- TaskQueue.ExecutedAtMostOnce: says nothing about tasks left in the channel when the workers stop, which are never executed.
- Limiter: that the clock readings for a key do not decrease in lock order is an assumption; time zones, monotonic clock rounding and the float conversion of the header seconds are not modelled.
- PersistentIndex: file errors and the encoding of entries are not modelled; a write either happens whole or the upsert was refused before it. Its search has no tie-break on IDs and is not modelled.
- PersistentFacts: histories start from a missing file, so a file edited by hand is opened (`PersistentIndex.NewPersistentHybridIndex`) but not followed through later operations.
- Streaming.Aggregate: starts from decoded lines; the request, retries, line reading and JSON decoding are not modelled, nor is a later error of the reader once the stream has ended.
- Embedding.Reassemble: starts from the decoded response; the request, retries and the error object of the response are not modelled.
- ToolSchema: JSON objects with a repeated key and numbers too large for a 64-bit float are not modelled; error messages carry no paths.
- ToolRegistry: the sorted listing of definitions is not modelled, nor are the contexts passed to handlers.
- Top-k optimality of the hybrid search: the code fuses two lists that are already truncated and breaks no ties, so only what the fusion does with them is stated.
- Everything that is input and output or small: HTTP servers and clients, authentication, loaders and parsers, other stores, versioning, fact stores, roles, the concurrency semaphore, cron, presets and the command line.
