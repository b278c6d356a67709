# Verified model of the NL2SQL service core

The service answers a question in plain language with a SQL query. This project models the parts of it
that keep state or rewrite SQL, and proves what they keep and what they promise.

* **The ReAct planning loop** (`Planner*.dfy`, `TableNames.dfy`, `Focus.dfy`). Each round works out which
  actions are on offer, lets a state rule or the planning model choose one, passes the choice through a
  memory guard, possibly turns a generation into a "refocus" retrieval, executes it and validates generated
  SQL. The planning model, the retrievers, the column loaders, the code model and the validators may answer
  anything; the answers of one round are a value of `Answers`. `PlannerActions` and `PlannerLoop` say what an
  action, a round and a run do, `PlannerChoices`, `PlannerTargets` and `PlannerEndings` what that comes to on the
  state's own fields; `ReactExecutor.Planner` runs them by updating its state in place, and
  `RunLoop` is the loop itself, proved to return what `PlannerLoop.Run` says. The time budget is the number
  of rounds that start before the deadline.
* **The query caches.** `CacheKeys` canonicalises queries, `CacheKeyText` says what the canonical text keeps of
  a query's words, `QueryCaching` is the in-memory cache with exact and cosine lookup, `Similarity` the cosine, `EpochCaching` the memory tier and the epoch-stamped
  database table under any interleaving of requests and invalidations, and `AskCaching` the same for the
  `/ask` endpoint, whose answers are made from the answers of SQL requests.
* **The token bucket** (`RateLimiting`), over the reals.
* **The observability pipeline** (`EventPipeline`): recorders, a bounded queue, a batching worker, timeouts
  and shutdown, under any interleaving.
* **SQL text.** `RowCapping` rewrites the tail of a statement; `SqlReading` says how the database reads a text
  (comments, quotes, the first statement, the limit at its end), and `RowCapReading`, `SplitTails` and
  `RowCapMeaning` what the rewrite does to the rows. `DeterministicSql` builds statements for simple questions,
  and `DeterministicChoice` says which; `SqlText` quotes identifiers and literals and reads them back.
* **The pool reconnect** (`Reconnecting`) and the **latency percentile** (`Percentiles`).

`dafny verify dfyconfig.toml` checks the whole project.

## Where the code falls short of the promise

* *Termination.* Nothing but the deadline ends a run in which the scope outnumbers `sql_generation_max_tables`
  and no column is ever found: the refocus retrieval is chosen after the memory guard and is not counted.
  `RunsEndByThemselvesExactly` proves that the loop is bounded exactly when no iterations are allowed, the cap is
  zero, or it is no smaller than the number of tables; `RunsAreBounded` gives the linear bound, plus the number
  of refocuses that refreshed nothing.
* *Cache freshness.* Only ReAct answers filed under the epoch captured at lookup are guaranteed to rest on
  knowledge at least as new as their epoch. Deterministic answers, ReAct answers whose epoch lookup failed, and
  the memory tier can be stale; there is a concrete run for each. `RowIsFreshExactly` and `MemoryIsFreshExactly`
  say exactly when a row or a memory entry is fresh: when no commit that its oldest read had not seen came before
  the bump to the epoch. Memory can be overtaken in two ways: a generation in flight refills it after it was
  cleared (`MemoryCanBeStale`), or a lookup between the clearing and the bump copies an old row into it
  (`WarmingBeforeTheBumpIsStale`), although no request is active at the commit, the clearing or the bump. Only
  when no request is active from a commit until its bump is over is everything served current
  (`QuietLookupsAreCurrent`).
* *Ask rows.* An ask captures an epoch of its own and then makes a SQL request, which may be answered from the
  stale memory tier, so the captured epoch alone does not make an ask row fresh (`AskRowCanBeStale`). It does when
  the SQL was generated for the ask or came from a ReAct row filed under a captured epoch (`AskRowsAreFresh`).
* *Unparseable planning answers.* They are promised not to end a run. One that is shaped like an action line
  does: after `ACTION: ponder` the run gives up (`PonderEndsARun`). `UnparseableAnswersEndTheRunExactly` proves
  that no other does.
* *Row cap.* The cap keeps the meaning if and only if it stands in the text (`RowCapKeepsMeaningExactly`): it is
  written in code, onto a limit or behind a query that takes one. Written into a trailing comment it is lost, and
  every row comes back (`TrailingCommentLosesTheCap`, `NoteLosesTheCap` for `SELECT a FROM t -- note`); behind a
  locking clause, or behind a limit that a comment hides from the pattern, it makes the database refuse the
  statement (`RowCapBreaks`, `ForShareBreaks`); and a tail whose keyword is in a comment and whose number is on
  the next line is rewritten to something else (`AcrossNeverStands`). Capping twice is capping once for every
  string except a lone semicolon (with blanks around it).
* *Identifier quoting.* A plain name followed by a newline is printed bare and loses the newline; every other
  identifier reads back.

## Model

| member | source | states |
|---|---|---|
| PlannerLivelock.RunsEndByThemselvesExactly | nl2sql_service/agent/react_executor.py:1128-1471 | For all runs over given tables and model inputs, one number of rounds suffices without the deadline if and only if no iterations are allowed, the generation cap is zero, or it is at least the number of tables |
| PlannerTermination.RunsAreBounded | nl2sql_service/agent/react_executor.py:1128-1471 | Whatever the planning model answers, a run goes on for at most max_iterations + 2·tables + inputs + 9 rounds plus its fruitless refocuses; beyond that more time does not change the response |
| PlannerTermination.RoundsAreBounded | nl2sql_service/agent/react_executor.py:1128-1471 | From any sound loop state the number of rounds is at most the measure (unretrieved tables, scope growth, unused keys, refocus and budget bits) plus the fruitless refocuses |
| PlannerTermination.RoundProgress | nl2sql_service/agent/react_executor.py:1242-1471 | Every round that goes on strictly lowers the measure, except a refocus that refreshed no column, which does not raise it |
| PlannerTermination.GrowingShrinks | nl2sql_service/agent/react_executor.py:1128-1471 | No part of the measure grows as the state grows; a join retrieval can come back only when the scope widened |
| PlannerTermination.SchemaTargetsNew | nl2sql_service/agent/react_executor.py:340-355 | A schema retrieval planned for tables without columns that passes the guard names a table in scope not retrieved before |
| PlannerLivelock.FruitfulRunsAreBounded | nl2sql_service/agent/react_executor.py:1290-1296 | If every refocus of a run finds a column, from the column catalog, the documents or the live database, the run is within the linear bound |
| PlannerLivelock.NarrowScopesAreBounded | nl2sql_service/agent/react_executor.py:1290-1296 | With no more tables than the cap, every run is within the linear bound |
| PlannerLivelock.WideScopesCanLoopForever | nl2sql_service/agent/react_executor.py:1290-1296 | With more tables than the cap, runs of every length exist: the refocus repeats while the budget is untouched |
| PlannerLivelock.StuckRound | nl2sql_service/agent/react_executor.py:1242-1298 | Over the cap, without columns and with all wanted tables retrieved, a round is blocked by the guard, turned into generation, refocused, and leaves the loop as stuck as before |
| PlannerSuccess.SuccessIsSafe | nl2sql_service/agent/react_executor.py:1542-1584 | Every success of every run carries non-empty SQL generated in the round that ended the run and accepted by all checks, for tables all in scope there and brought in by this run, at most as many as a positive cap allows, or the whole scope under a cap of zero; its trace ends with that generation |
| PlannerSuccess.RoundSucceedsExactly | nl2sql_service/agent/react_executor.py:1410-1423 | A round ends in success if and only if it generates non-empty SQL that passes the safety, table and column checks with EXPLAIN clean or unavailable; the response then carries that SQL and its tables |
| PlannerEndings.RoundEndsExactly | nl2sql_service/agent/react_executor.py:1452-1584 | How every round ends: rejected if the planning model was needed and failed; else one step more, ending by its executed action: generation by the code model's answer and the objections to its SQL (which are added to the warnings if it goes on), giving up or asking in a clarification, a retrieval in going on without a warning |
| PlannerEndings.RoundRejectsExactly | nl2sql_service/agent/react_executor.py:1473-1493 | A round is rejected if and only if the planning model is asked and fails in transport, or SQL is generated and the code model fails; the response holds the warnings so far and that failure, and the attempt count |
| PlannerEndings.RunRejectsExactly | nl2sql_service/agent/react_executor.py:1128-1493 | A run is rejected if and only if it runs out of time or reaches a round in which a model it needs fails |
| PlannerEndings.RunAnswersExactly | nl2sql_service/agent/react_executor.py:1128-1640 | Every run stops somewhere and is answered there: by MAX_RETRIES_EXCEEDED when the budget is used up, by REQUEST_TIMEOUT when the time is, by the round's response otherwise |
| PlannerEndings.GeneratesExactly | nl2sql_service/agent/react_executor.py:1242-1298 | A round generates SQL if and only if it plans to or its plan is blocked, with tables in scope and no need to refocus |
| PlannerEndings.DecidedExactly | nl2sql_service/agent/react_executor.py:323-365 | The guard blocks exactly the choices under a remembered key and the schema retrievals of tables all retrieved; then SQL is generated, or the user asked with nothing in scope |
| PlannerEndings.NarrowedExactly | nl2sql_service/agent/react_executor.py:1290-1298 | Generation turns into a schema retrieval exactly over a positive cap before any column refresh |
| PlannerEndings.GenerationTablesExactly | nl2sql_service/agent/react_executor.py:1257-1280 | SQL is generated for the best tables of the focus selection with an embedding, the first of the scope without one, the whole scope under a cap of zero |
| PlannerSuccess.GenerationIsScoped | nl2sql_service/agent/react_executor.py:1257-1298 | SQL is never generated with an empty scope or for tables out of scope; under a positive cap never for more tables than the cap, nor over the cap before any column refresh; under a cap of zero always for the whole scope |
| PlannerSuccess.ValidatesExactly | nl2sql_service/agent/react_executor.py:908-952 | Validation passes if and only if the SQL is not empty and every check accepts it; it then records the tables used and clears the errors |
| PlannerSuccess.TablesUsedExactly | nl2sql_service/generation/sql_generator.py:1133-1177 | The tables used are exactly the found tables in scope, and the check fails exactly on any other table that is no common table expression |
| PlannerSuccess.UsedAreDrawn | nl2sql_service/generation/sql_generator.py:1140-1163 | Every table used is the response name of a table on the list passed in |
| PlannerSuccess.FocusedIsBounded | nl2sql_service/agent/react_executor.py:1257-1280 | The focus is at most the cap, consists of names in scope, and is not empty when the scope and the cap are not |
| PlannerAgreement.EveryReachableStateAgrees | nl2sql_service/agent/react_executor.py:717-786 | In every reachable state allowed columns equal the retrieved schema, their keys are exactly the refreshed tables, and focus and retrieved tables are names of tables in scope (clean table names) |
| PlannerAgreement.RoundAgrees | nl2sql_service/agent/react_executor.py:1128-1471 | Any round keeps that agreement |
| PlannerAgreement.FirstRoundAgrees | nl2sql_service/agent/react_executor.py:1689-1718 | The concurrent first round keeps it under every interleaving, although the column targets are computed before the other coroutine may widen the scope |
| PlannerAgreement.SchemaActionAgrees | nl2sql_service/agent/react_executor.py:701-786 | A schema retrieval keeps it |
| PlannerTargets.SchemaActionExactly | nl2sql_service/agent/react_executor.py:701-795 | A schema retrieval, field by field: scope, groups, focus, retrieved tables, refreshed tables and columns; everything else stays |
| PlannerTargets.TargetsExactly | nl2sql_service/agent/react_executor.py:728-744 | Columns are looked up for the named tables, else the inferred, else the whole scope; the focus grows by the same, but by the whole scope only if it is one table |
| PlannerTargets.InferredExactly | nl2sql_service/agent/react_executor.py:220-234 | The inferred tables are the first two, each once and in order, that the search query names, and fewer only if it names no more |
| PlannerTargets.FoundExactly | nl2sql_service/agent/react_executor.py:755-773 | The refreshed tables are the wanted ones in the documents and those of the column catalog; only if these are none, those of the live database |
| PlannerTargets.OtherActionsExactly | nl2sql_service/agent/react_executor.py:638-958 | Corrections, join paths (none below two tables), samples and generation set their own fields and no others |
| PlannerTargets.BootstrapExactly | nl2sql_service/agent/react_executor.py:1060-1127 | A run starts with one schema retrieval for the search query and nothing counted |
| PlannerGrowth.RunOnlyGrows | nl2sql_service/agent/react_executor.py:1128-1471 | Over a run the scope keeps its order without repetition and gains only tables of retrieved groups and corrections; focus, retrieved tables, refreshed columns, remembered actions and context are never lost |
| PlannerGrowth.RunKeepsEveryBlock | nl2sql_service/agent/react_executor.py:158-167 | Every context block merged in any round is still a substring of the context at the end of the run |
| PlannerFirstRound.FirstRoundLosesNothing | nl2sql_service/agent/react_executor.py:1689-1718 | For every interleaving the scope after the first round is the old scope, in front, and exactly the tables of the corrections and of the retrieved groups |
| PlannerFirstRound.FirstRoundKeepsContext | nl2sql_service/agent/react_executor.py:1689-1718 | For every interleaving the context holds the old context and every block either retrieval merged |
| PlannerFirstRound.MergedIsComplete | nl2sql_service/agent/react_executor.py:1689-1718 | Under any schedule both coroutines finish, so the corrections, group and columns blocks are all among the merged ones |
| PlannerFirstRound.InterleaveKeepsContext | nl2sql_service/agent/react_executor.py:158-167 | No resumption of either coroutine loses a block |
| PlannerFirstRound.ActionWidens | nl2sql_service/agent/react_executor.py:638-958 | An action only widens the scope, by exactly the tables it brings |
| PlannerFirstRound.ActionKeepsContext | nl2sql_service/agent/react_executor.py:638-958 | An action keeps the whole context and adds its own blocks |
| PlannerAccounting.EveryRunIsAccountedFor | nl2sql_service/agent/react_executor.py:1452-1506 | On every run sql_generation_count ≤ planner_iterations ≤ max_iterations, and on every exit total_iterations is the number of steps, numbered 1..n |
| PlannerAccounting.RoundCounts | nl2sql_service/agent/react_executor.py:1452-1471 | A round that goes on adds one numbered step; it is not counted if that is a retrieval, is counted otherwise, and never beyond the maximum |
| PlannerAccounting.NoRetrievalKeyTwice | nl2sql_service/agent/react_executor.py:1386-1408 | No two rounds of a run retrieve under the same (action, target) key, except by refocusing |
| PlannerAccounting.KeysAreNew | nl2sql_service/agent/react_executor.py:323-365 | A retrieval that passes the guard has a key that no earlier retrieval of the run had |
| PlannerAccounting.RoundRemembersKeys | nl2sql_service/agent/react_executor.py:1386-1408 | What a round retrieved under is remembered when it is over, although the recorded key is recomputed after execution |
| PlannerAccounting.RetrievalsHaveKeys | nl2sql_service/agent/react_executor.py:1242-1298 | Every executed retrieval that is not a refocus is the planned one and has a key |
| PlannerPlanning.PlansAreSensible | nl2sql_service/agent/react_executor.py:1158-1240 | Whatever the model answers, a round plans corrections in round one, schema only for tables without columns, joins only while missing, samples under a model or planner input, generation only with tables in scope, or a question; never a bare validation |
| PlannerPlanning.ModelHasNoRetrievals | nl2sql_service/agent/react_planner.py:79-133 | When the state rule does not decide, schema and join retrieval are not on offer |
| PlannerPlanning.NeedsSchemaExactly | nl2sql_service/agent/react_executor.py:569-607 | The state rule and the list of available actions agree on which tables lack columns |
| PlannerChoices.PlannedExactly | nl2sql_service/agent/react_executor.py:1158-1240 | In every agreeing state a round plans, on the state's fields: corrections first; generation when confident; schema for the tables in focus (or scope) without columns; joins for more than one focus table without join paths; else what the model's answer comes to |
| PlannerChoices.OfferedExactly | nl2sql_service/agent/react_planner.py:79-133 | Exactly when each action is on offer, on the state's fields: schema, joins, samples and generation each if and only if its condition holds |
| PlannerTargets.ScoreExactly | nl2sql_service/agent/react_executor.py:368-419 | Which share goes with which weight, the penalty per iteration after the first, and the bounds of the score |
| PlannerTargets.ScoredForTheRound | nl2sql_service/agent/react_executor.py:1150-1157 | A round scores its state for the counted rounds and itself, and changes nothing else |
| PlannerParsing.UnparseableAnswersEndTheRunExactly | nl2sql_service/agent/react_planner.py:240-278 | In any reachable state that turns to the planning model, an answer from which no action can be read makes the run give up if and only if it is shaped like an action line; otherwise the round ends in no clarification |
| PlannerParsing.PonderEndsARun | nl2sql_service/agent/react_planner.py:251-256 | A run over one table with known columns that ends at its first planning answer, `ACTION: ponder` |
| PlannerPlanning.ConfidenceIsMonotone | nl2sql_service/agent/react_executor.py:368-419 | With weights that are not negative and for the same focus and scope, knowing more never lowers the confidence score and a later round never raises it |
| PlannerLoop.BuildAvailableActions | nl2sql_service/agent/react_planner.py:79-133 | The appending and deduplicating method returns the specified list |
| ReactExecutor.RunLoop | nl2sql_service/agent/react_executor.py:1029-1640 | The loop returns exactly the response of the specified run, for every sequence of answers and any deadline |
| ReactExecutor.Planner.PlayRound | nl2sql_service/agent/react_executor.py:1128-1584 | One round, in place: ends with the specified response or leaves exactly the specified next loop state |
| ReactExecutor.Planner.ChooseAction | nl2sql_service/agent/react_executor.py:1158-1240 | Chooses as specified between state rule, confidence shortcut and model |
| ReactExecutor.Planner.FocusGeneration | nl2sql_service/agent/react_executor.py:1257-1298 | Narrows the generation tables, or replaces the generation by a refocus, as specified |
| ReactExecutor.Planner.Perform | nl2sql_service/agent/react_executor.py:1300-1408 | Executes the choice, in parallel in round one, and remembers its key |
| ReactExecutor.Planner.AutoValidate | nl2sql_service/agent/react_executor.py:1410-1423 | Validates SQL generated in this round |
| ReactExecutor.Planner.Conclude | nl2sql_service/agent/react_executor.py:1452-1584 | Counts, records, and answers or goes on |
| ReactExecutor.Planner.GatherFirstRound | nl2sql_service/agent/react_executor.py:1689-1718 | Running the two coroutines along any schedule leaves the specified state |
| ReactExecutor.Planner.StepSchema | nl2sql_service/agent/react_executor.py:701-786 | One stretch of the schema coroutine, up to its next await |
| ReactExecutor.Planner.ExecuteAction | nl2sql_service/agent/react_executor.py:638-958 | Every action leaves the specified state and warnings |
| ReactExecutor.Planner.RetrievePast | nl2sql_service/agent/react_executor.py:651-699 | Corrections widen the scope one after the other and are noted in the context |
| ReactExecutor.Planner.RetrieveSchema | nl2sql_service/agent/react_executor.py:701-804 | Groups, scope, focus, columns and retrieved tables after a schema retrieval |
| ReactExecutor.Planner.TakeGroups | nl2sql_service/agent/react_executor.py:717-746 | The stretch between the group retrieval and the column retrieval |
| ReactExecutor.Planner.TakeColumns | nl2sql_service/agent/react_executor.py:747-795 | The stretch after the column retrieval; the live database is asked only when nothing else knew a column |
| ReactExecutor.Planner.RetrieveJoins | nl2sql_service/agent/react_executor.py:806-835 | Join paths are replaced, by none for fewer than two tables |
| ReactExecutor.Planner.RetrieveSamples | nl2sql_service/agent/react_executor.py:837-857 | Sample queries are replaced and noted in the context |
| ReactExecutor.Planner.Generate | nl2sql_service/agent/react_executor.py:859-906 | A transport failure changes nothing; otherwise SQL, count and errors are set |
| ReactExecutor.Planner.Validate | nl2sql_service/agent/react_executor.py:908-952 | The verdict, the tables used and the remembered errors |
| ReactExecutor.Planner.EnsureEmbedding | nl2sql_service/agent/react_executor.py:249-262 | The embedding is loaded once |
| ReactExecutor.Planner.constructor | nl2sql_service/agent/react_executor.py:1053-1080 | The initial state |
| FocusSelection.FocusIsTopK | nl2sql_service/agent/react_executor.py:265-320 | The focus is the true top k: few tables are all kept; without hits the scope prefix; otherwise the scored tables in rank order, and no omitted scored table beats a kept one |
| FocusSelection.RanksAreRight | nl2sql_service/agent/react_executor.py:290-302 | A table is ranked exactly when it is in scope and hit, by its best similarity and its first hit |
| FocusSelection.FocusIsBounded | nl2sql_service/agent/react_executor.py:265-320 | Distinct names in scope, at most the maximum |
| FocusSelection.FocusedTables | nl2sql_service/agent/react_executor.py:265-320 | The loop and sort compute that selection |
| TableNames.MergeOrderedStrings | nl2sql_service/agent/react_executor.py:133-139 | The merging loop returns the specified list |
| TableNames.MergeStored | nl2sql_service/agent/react_executor.py:133-139 | A merge keeps the old list as a prefix and adds exactly the new stripped items, without repetition |
| TableNames.ParseCsvItems | nl2sql_service/agent/react_executor.py:88-94 | The parsing loop returns the specified list |
| TableNames.ParseSpacedJoin | nl2sql_service/agent/react_executor.py:600-607 | A comma-and-blank joined list of canonical names parses back to the names |
| TableNames.ParseJoin | nl2sql_service/agent/react_planner.py:59-66 | A comma-joined list of canonical names parses back to the names |
| PlannerMerges.MergeAllowedColumns | nl2sql_service/agent/react_executor.py:142-155 | The merging loop returns the specified dictionary |
| PlannerMerges.KeysOfCanonicalMerge | nl2sql_service/agent/react_executor.py:142-155 | Merging canonical columns joins exactly the key sets |
| PlannerMerges.KeysOfMerge | nl2sql_service/agent/react_executor.py:142-155 | Merging keeps all keys and adds exactly the non-blank normal forms of the incoming names |
| PlannerMerges.MergeKeepsColumns | nl2sql_service/agent/react_executor.py:142-155 | Every table keeps its old columns in front and gains exactly the columns that came in under its name |
| PlannerMerges.ContextKeepsBlocks | nl2sql_service/agent/react_executor.py:158-167 | A merged context stays stripped, holds the new block and everything the old one held |
| PlannerMerges.MergedContextExactly | nl2sql_service/agent/react_executor.py:158-167 | A block the context holds changes nothing; any other goes to the end behind an empty line |
| PlannerMerges.MergingTwiceIsOnce | nl2sql_service/agent/react_executor.py:158-167 | Merging a block twice is merging it once |
| NameText.NormalizeExactly | nl2sql_service/agent/react_executor.py:84-86 | A normalised name is the lower-case text within blanks and, inside these, quotes or brackets |
| NameText.NormalizeIgnoresCase | nl2sql_service/agent/react_executor.py:84-86 | Names that differ in case only are one name |
| NameText.QueryKeysExactly | nl2sql_service/agent/react_planner.py:71-75 | Two sample or correction retrievals share a key exactly when their texts have the same words up to case |
| NameText.SchemaKeysExactly | nl2sql_service/agent/react_planner.py:59-67 | Two schema retrievals that name tables share a key exactly when they name the same tables in the same order |
| CacheKeys.CanonicalizeQueryText | nl2sql_service/core/cache_keys.py:27-35 | The token loop returns the canonical text |
| CacheKeys.CanonicalIsIdempotent | nl2sql_service/core/cache_keys.py:27-35 | Canonicalising twice is canonicalising once |
| CacheKeys.CanonicalTextReadsBack | nl2sql_service/core/cache_keys.py:27-35 | Splitting canonical text gives its tokens back |
| CacheKeys.CanonicalSeparatesTokens | nl2sql_service/core/cache_keys.py:27-35 | Two queries share a canonical text exactly when their canonical tokens agree |
| CacheKeyText.CanonicalSaysTheWords | nl2sql_service/core/cache_keys.py:7-35 | For any query, spelled as words of letters and digits with anything else between, the canonical text is its words in lower case, with newest, recent and recently as latest and the filler words left out |
| CacheKeyText.EveryQueryIsSpelled | nl2sql_service/core/cache_keys.py:27-35 | Every query can be spelled so |
| CacheKeyText.KeysSeparateMeanings | nl2sql_service/core/cache.py:160-163 | Two queries share a key, in either tier, exactly when their words mean the same in order |
| CacheKeyText.OtherWordsSayThemselves | nl2sql_service/core/cache_keys.py:29-34 | Words outside the vocabulary stand for themselves in lower case |
| CacheKeyText.CaseDoesNotMatter | nl2sql_service/core/cache_keys.py:28 | Queries equal up to case share canonical text and key |
| CacheKeys.CanonicalHasNoColon | nl2sql_service/core/cache.py:160-163 | Canonical text never contains a colon |
| CacheKeys.TiersAgreeOnKeys | nl2sql_service/core/cache.py:244-247 | Both tiers put exactly the same requests in one class |
| QueryCaching.SemanticSqlCache.GetExact | nl2sql_service/core/cache.py:97-106 | A fresh entry is returned, a stale one removed |
| QueryCaching.SemanticSqlCache.GetSemantic | nl2sql_service/core/cache.py:108-139 | Returns the answer of the first best-scoring fresh, embedded entry of the same top_k at or above the threshold, none exactly when none qualifies, and purges exactly the stale entries |
| QueryCaching.SemanticSqlCache.Set | nl2sql_service/core/cache.py:141-150 | Only accepted answers are stored; a full cache drops its oldest entry first |
| QueryCaching.SemanticSqlCache.OldestKey | nl2sql_service/core/cache.py:145-147 | The first entry with the least timestamp |
| QueryCaching.SetLosesOnlyTheOldest | nl2sql_service/core/cache.py:141-150 | An accepted answer replaces the one under its key; nothing else is lost below capacity, and in a full store exactly the first entry with the least timestamp |
| QueryCaching.ExactLookupOf | nl2sql_service/core/cache.py:97-106 | An exact lookup hits if and only if an entry under the key is within its time to live, and drops nothing but that entry when it is not |
| QueryCaching.SemanticSqlCache.InvalidateAll | nl2sql_service/core/cache.py:152-155 | Empties the cache and reports how many entries it had |
| QueryCaching.CacheRefinesLog | nl2sql_service/core/cache.py:84-163 | Over any sequence of calls the store is within its size and every entry is the latest accepted write of its key since the last invalidation |
| QueryCaching.NothingFreshIsMissed | nl2sql_service/core/cache.py:97-155 | With fewer distinct live keys than the maximum size no fresh entry is ever missing |
| QueryCaching.ExactHitIsLatest | nl2sql_service/core/cache.py:97-106 | An exact hit is the latest accepted answer for that canonical query and top_k, within its time to live |
| QueryCaching.ExactLookupIsExact | nl2sql_service/core/cache.py:97-106 | Below capacity an exact lookup hits if and only if the log holds a fresh answer |
| QueryCaching.SemanticHitIsLatest | nl2sql_service/core/cache.py:108-139 | A semantic hit is the latest accepted answer of its own key, fresh and with the asked top_k |
| QueryCaching.BestIsUnique | nl2sql_service/core/cache.py:108-139 | The best candidate is unique, so the scan order decides ties |
| QueryCaching.ThresholdDecides | nl2sql_service/core/cache.py:124-134 | For a threshold above -1 the starting score never excludes an entry |
| QueryCaching.StoredEmbeddingIsFound | nl2sql_service/core/cache.py:108-139 | Asking with a stored non-zero embedding hits at any threshold above -1 and up to 1 |
| Similarity.CauchySchwarz | nl2sql_service/core/cache.py:250-259 | The square of the dot product is at most the product of the squared lengths |
| Similarity.CosineRange | nl2sql_service/core/cache.py:250-259 | Every score lies between -1 and 1 |
| Similarity.CosineWithItself | nl2sql_service/core/cache.py:250-259 | A non-zero vector scores 1 with itself |
| EpochCaching.CacheDatabase.GetQueryCacheEpoch | nl2sql_service/db/db.py:1125-1134 | A missing epoch row counts as 1 |
| EpochCaching.CacheDatabase.BumpQueryCacheEpoch | nl2sql_service/db/db.py:1137-1156 | The epoch moves on by exactly one |
| EpochCaching.LookupFindsLatestWrite | nl2sql_service/db/db.py:1159-1235 | After any writes, a lookup finds exactly the latest write for the same canonical question, top_k and epoch, and nothing if there was none |
| EpochCaching.ReactRowsAreFresh | nl2sql_service/generation/sql_generator.py:1843-1864 | Under every interleaving, a lookup at an epoch never returns a ReAct answer filed under its captured epoch that rests on knowledge older than the bump to it |
| EpochCaching.RowIsFreshExactly | nl2sql_service/generation/sql_generator.py:1680-1732 | Any row is fresh for its epoch if and only if no commit that its oldest read had not seen came before the bump to that epoch; equally, if that read was not made in an earlier epoch or saw all that the epoch started from |
| EpochCaching.MemoryIsFreshExactly | nl2sql_service/generation/sql_generator.py:1640-1732 | Any memory entry is fresh for the present epoch if and only if no commit that its oldest read had not seen came before the latest bump; equally, if that read was made in the present epoch or saw all that the epoch started from |
| EpochCaching.DeterministicRowCanBeStale | nl2sql_service/generation/sql_generator.py:1756-1782 | A concrete run in which a deterministic answer older than the bump is served after it |
| EpochCaching.UncapturedReactRowCanBeStale | nl2sql_service/generation/sql_generator.py:1843-1864 | The same for a ReAct answer whose epoch lookup failed |
| EpochCaching.MemoryCanBeStale | nl2sql_service/main.py:375-377 | A concrete run in which the memory tier is refilled with an old answer after it was cleared |
| EpochCaching.WarmingBeforeTheBumpIsStale | nl2sql_service/main.py:375-377 | A concrete run in which a lookup between clearing and bump makes memory stale, with every request done at the commit, the clearing and the bump |
| EpochCaching.QuietLookupsAreCurrent | nl2sql_service/main.py:375-377 | If requests are done at each commit and take no step until memory is cleared and the epoch bumped, both tiers and both paths serve only answers computed from the present knowledge |
| AskCaching.AskRowsAreFresh | nl2sql_service/main.py:2648-2667 | Under every interleaving, a lookup at an epoch never returns an ask answer older than the bump to it, if the ask filed it under its captured epoch and its SQL was generated or came from a ReAct row filed under a captured epoch |
| AskCaching.AskRowIsFreshExactly | nl2sql_service/main.py:3169-3186 | Any ask row, and any entry of the ask cache in memory, is fresh if and only if no commit that the oldest read of its SQL answer had not seen came before the bump |
| AskCaching.AskRowCanBeStale | nl2sql_service/main.py:2798-2804 | A concrete run in which an ask files a stale memory answer under the new epoch it captured |
| RateLimiting.RateLimiter.Consume | nl2sql_service/core/rate_limiter.py:17-31 | One request changes both maps as the specified bucket step does, and other clients not at all |
| RateLimiting.AdmittedExactlyWithinEveryWindow | nl2sql_service/core/rate_limiter.py:17-31 | A request is admitted if and only if every window opened by an earlier request still fits capacity + rate·length |
| RateLimiting.WindowBound | nl2sql_service/core/rate_limiter.py:17-31 | Over any window of requests i..j admissions are at most capacity + rate·(t_j − t_i) |
| RateLimiting.AvailableIsTightestWindow | nl2sql_service/core/rate_limiter.py:17-31 | The bucket level is the smallest of all window allowances |
| RateLimiting.OthersChangeNothing | nl2sql_service/core/rate_limiter.py:17-31 | A client's bucket depends on its own requests only |
| RateLimiting.DecisionIsPerClient | nl2sql_service/core/rate_limiter.py:17-31 | The decision on a request is the one its client's history alone gives |
| RateLimiting.SharedLimiterIsExact | nl2sql_service/core/rate_limiter.py:17-31 | Over any mix of clients, the latest request is admitted exactly when it fits every window of its own client |
| EventPipeline.AsyncObservabilityPipeline.Publish | nl2sql_service/observability/logger.py:151-164 | The event goes to the end of the queue if and only if the queue is unbounded or shorter than its size; otherwise nothing changes |
| EventPipeline.AsyncObservabilityPipeline.Receive | nl2sql_service/observability/logger.py:166-190 | The worker takes the head of the queue; a full batch or the sentinel starts a flush |
| EventPipeline.AsyncObservabilityPipeline.TimeOut | nl2sql_service/observability/logger.py:175-181 | A timeout flushes a non-empty batch and leaves an empty one |
| EventPipeline.AsyncObservabilityPipeline.Flush | nl2sql_service/observability/logger.py:192-211 | Flushes the rest of the batch in order |
| EventPipeline.TraceRecorder.Emit | nl2sql_service/main.py:645-691 | Numbers the event and offers it to the pipeline, which accepts it if and only if there is room |
| EventPipeline.DeliveryIsExactlyOnce | nl2sql_service/observability/logger.py:151-190 | In every reachable state the accepted events are exactly the flushed, then the held, then the queued ones, in order and without repetition; the queue is within its size and a collected batch is not full |
| EventPipeline.StopFlushesEverythingBefore | nl2sql_service/observability/logger.py:143-149 | When stop returns, the flushed events are exactly those accepted before the sentinel, in publish order |
| EventPipeline.RecorderOrderSurvives | nl2sql_service/main.py:645-691 | Flushed events of one recorder have strictly increasing numbers, with gaps only for dropped events |
| EventPipeline.DroppedExactlyWhenFull | nl2sql_service/observability/logger.py:151-164 | Over any run exactly the events emitted while a bounded queue was full are dropped |
| EventPipeline.FullDecides | nl2sql_service/observability/logger.py:143-164 | Wherever a run stands, an event is dropped if and only if the queue is full, and the sentinel can be put if and only if it is not |
| EventPipeline.EverythingGetsOut | nl2sql_service/observability/logger.py:166-211 | From wherever a run stands with a working worker, the worker alone can flush everything accepted, or everything before the sentinel |
| RowCapMeaning.RowCapKeepsMeaningExactly | nl2sql_service/db/mysql_executor.py:22-56 | Whatever the database holds, the capped statement returns exactly the first cap rows of the original, offset kept, and fails when that fails, if and only if the cap stands in the text: in code onto a limit or a query that takes one, or the statement limits itself enough or is refused anyway (positive cap, or no comment ending inside the tail) |
| RowCapMeaning.RowCapKeepsMeaning | nl2sql_service/db/mysql_executor.py:22-56 | Where the cap stands it keeps the meaning, for rows of any type and every cap |
| RowCapMeaning.ReadingsDecide | nl2sql_service/db/mysql_executor.py:22-56 | For every text and cap, the cap keeps the meaning in all databases if and only if the capped text reads as the capped reading of the original |
| RowCapMeaning.RowCapIsLost | nl2sql_service/db/mysql_executor.py:54-56 | Written in a line comment or behind the statement, the cap changes nothing, so it holds exactly when there were no more rows than the cap |
| RowCapMeaning.RowCapBreaks | nl2sql_service/db/mysql_executor.py:54-56 | Appended to a query that takes no limit, the cap makes the statement fail, so it holds exactly when the original failed |
| RowCapMeaning.TrailingCommentLosesTheCap | nl2sql_service/db/mysql_executor.py:54-56 | Behind any plain query with a line comment at its end, every row comes back whatever the cap |
| RowCapMeaning.NoteLosesTheCap | nl2sql_service/db/mysql_executor.py:54-56 | The same at `SELECT a FROM t -- note` |
| RowCapMeaning.ForShareBreaks | nl2sql_service/db/mysql_executor.py:54-56 | `SELECT a FROM t FOR SHARE` fails once capped |
| SplitTails.AcrossNeverStands | nl2sql_service/db/mysql_executor.py:35-52 | A positive cap written across the end of a comment keeps the meaning only if the database refuses both statements |
| RowCapping.RowCapIsIdempotentExactly | nl2sql_service/db/mysql_executor.py:22-56 | Capping twice is capping once if and only if the string is not a lone semicolon |
| RowCapping.LoneSemicolonIsRewrittenTwice | nl2sql_service/db/mysql_executor.py:32-56 | What happens to a lone semicolon, capped once and twice |
| RowCapping.TailGrammarIsExact | nl2sql_service/db/mysql_executor.py:12-19 | The recogniser accepts exactly the tails of the grammar and takes them apart uniquely |
| RowCapReading.RecappedReading | nl2sql_service/db/mysql_executor.py:35-52 | A limit in code, with OFFSET or comma, is read after the cap as the smaller limit over the same query and offset |
| DeterministicSql.BuiltQueryIsWellFormed | nl2sql_service/generation/sql_generator.py:743-787 | Anything built projects at most 8 distinct columns of its table, orders or filters by its columns, and has a limit in 1..50 |
| DeterministicChoice.BuiltExactly | nl2sql_service/generation/sql_generator.py:743-787 | A statement is built if and only if the question names a table with columns and either asks for recent rows and some column can order them, or some rule yields a filter |
| DeterministicChoice.BuiltAsAsked | nl2sql_service/generation/sql_generator.py:743-787 | It reads from the table the question names, orders if and only if there is a count or a recent term, filters by the first rule that yields a filter, and is limited to the count, else to 1 for a singular table, else to top_k, between 1 and 50 |
| DeterministicChoice.ListedExactly | nl2sql_service/generation/sql_generator.py:530-574 | The listed columns are the first eight, each once, of the key-like, the descriptive, the first order column and the non-audit ones; else the first eight columns |
| DeterministicChoice.KindsByName | nl2sql_service/generation/sql_generator.py:537-590 | The three kinds of columns, by name |
| DeterministicChoice.TimeColumnsFill | nl2sql_service/generation/sql_generator.py:521-527 | Time-like columns fill up the order columns to four |
| DeterministicChoice.TimeColumnsOverflow | nl2sql_service/generation/sql_generator.py:521-527 | With four preferred columns or more, at most the next column is added, if it is time-like |
| DeterministicChoice.OrdersExactly | nl2sql_service/generation/sql_generator.py:505-528 | Some column orders if and only if one is preferred by name or time-like |
| DeterministicChoice.RuleYieldsExactly | nl2sql_service/generation/sql_generator.py:678-713 | When a rule yields a filter, and which |
| DeterministicChoice.ExactColumnIsFirst | nl2sql_service/generation/sql_generator.py:660-665 | The first term that names a column decides |
| DeterministicChoice.PartialColumnIsFirst | nl2sql_service/generation/sql_generator.py:666-669 | Otherwise the first column that contains a term does |
| DeterministicChoice.LastWithLowerExactly | nl2sql_service/generation/sql_generator.py:506-518 | A name stands for the last column with that lower-case name |
| DeterministicChoice.OwnColumns | nl2sql_service/generation/sql_generator.py:757 | The columns of a named table are its own, if it has any |
| DeterministicSql.BuiltQueryReadsBack | nl2sql_service/generation/sql_generator.py:743-787 | Whatever is printed for a readable schema reads back: table, columns, ordering or filter with its literal, and limit |
| DeterministicSql.PrintedQueryReadsBack | nl2sql_service/generation/sql_generator.py:772-787 | A printed statement reads back as the statement it was printed from |
| DeterministicSql.BestRecentOrderColumns | nl2sql_service/generation/sql_generator.py:505-528 | The loops return the specified order columns |
| DeterministicSql.SelectListingColumns | nl2sql_service/generation/sql_generator.py:530-574 | The passes return the specified listing columns |
| DeterministicSql.AddColumns | nl2sql_service/generation/sql_generator.py:537-565 | One pass adds the columns of one kind while there is room |
| DeterministicSql.BuildFilterClause | nl2sql_service/generation/sql_generator.py:671-715 | The first applicable rule decides the filter |
| SqlText.IdentifierReadsBackExactly | nl2sql_service/generation/sql_generator.py:329-332 | A quoted identifier reads back as itself if and only if it is not a plain name with a newline at its end |
| SqlText.LiteralReadsBack | nl2sql_service/generation/sql_generator.py:712-713 | A quote-doubled literal reads back as its value |
| Reconnecting.AppState.TryFastPath | nl2sql_service/main.py:1057-1070 | The unlocked check |
| Reconnecting.AppState.TryUnderLock | nl2sql_service/main.py:1072-1080 | The same checks under the lock; passing them stamps the attempt |
| Reconnecting.AppState.FinishAttempt | nl2sql_service/main.py:1082-1092 | Success publishes the pool, failure clears it |
| Reconnecting.ReconnectIsSafe | nl2sql_service/main.py:1057-1092 | Under any interleaving, at most one attempt is in flight, attempts start at least the interval apart, and none starts while a pool is present |
| Reconnecting.TurnedAwayOnlyWithinInterval | nl2sql_service/main.py:1068-1079 | A request is turned away without a pool only within the interval since the latest attempt |
| Reconnecting.PoolIsTheLatest | nl2sql_service/main.py:1082-1092 | In every reachable state the pool is what the latest successful attempt published, unless an attempt or a connection failed after it |
| Reconnecting.RequestsGetThePool | nl2sql_service/main.py:1057-1092 | A request is served a pool that is present, or what its own attempt connected; only an attempt keeps the lock, until it ends |
| Percentiles.PercentileIsMonotone | nl2sql_service/evaluation/runner.py:43-56 | A larger percentile never gives a smaller result, across segment boundaries |
| Percentiles.PercentileSpansTheRange | nl2sql_service/evaluation/runner.py:43-56 | The result lies between minimum and maximum, which are the 0th and the 100th percentile |
| Percentiles.PercentileIgnoresOrder | nl2sql_service/evaluation/runner.py:43-56 | The order of the recorded values does not matter |
| Percentiles.PercentileInterpolates | nl2sql_service/evaluation/runner.py:49-56 | Between two neighbouring ranks the result lies on the straight line between the ordered values |

## Left out

- Text is ASCII: case mapping and blanks of other scripts are not modelled.
- The planning and code models, query rewriting, retrieval, column loading, EXPLAIN and the SQL validators are arbitrary answers; of the validators only the bookkeeping of `validate_tables_used` is modelled, and they report no transport failure. Its tables go through a second normaliser (sql_generator.py:2121), which keeps what follows the last dot, so `tables_used` are response names of focus tables.
- Whether a search query mentions a table, and whether corrections are checked at all, are given as inputs, as is the text of context blocks; `combine_search_queries`, prompts, learned instructions, trace events and latencies decide nothing in the loop.
- Every await that fails with an exception ends the run and is not modelled, except the failures the code catches.
- Inferring focus tables normalises a normalised name again; the model does not.
- The constant in the termination bound counts the planner's own five action inputs and four one-time retrievals.
- The deadline is the number of rounds that start before it; timeouts inside a call show as transport failures.
- The `warnings` of a model clarification are those collected so far; the service shows them only in the failure reason.
- Table names in the state agreement, accounting, success and termination results are clean: not empty and free of commas once normalised, and not changed by normalising again. Growth, context and first-round results need no such condition.
- The retrieval before the loop records no key, and the schema half of the parallel first round is recorded but does not pass the guard.
- `sql_generation_max_tables` is not negative.
- One clock reading per cache call and per rate-limiter request; clock readings never go back.
- `SqlCache` and `EmbedCache` are the exact part, and `AskCache` the whole, of the modelled cache with other constants; MD5 is taken as injective, and the square root is any function with its defining property.
- The semantic lookup of the database is any row of the right epoch; hit counters and timestamps of rows are left out.
- Several concurrent calls of `stop`, restarting the pipeline, and cancellation of the worker.
- The database reads texts as MySQL does by default: strings in single or double quotes with backslash escapes, `--` as a comment only in front of a blank or at the end, of several statements the rows of the first. Executable comments (`/*! */`), `INTO` clauses, table names in backquotes behind `FOR UPDATE OF`, and numbers too large for a limit are not modelled. Which rows a query without a limit has is an arbitrary function of its text. The parser call before the rewrite never fails on a non-empty string.
- RowCapMeaning.RowCapKeepsMeaningExactly: for a cap of zero says nothing of texts on which the cap is written across the end of a comment, because a zero cap can hold there by accident; `ReadingsDecide` decides those too.
- SqlText.LiteralReadsBack: the reader knows quote doubling only. MySQL by default also reads backslash escapes, so a configured value that ends in a backslash does not read back there.
- The choice of the target table and the matches of the question's patterns in deterministic SQL are inputs.
- Floating-point rounding: scores, tokens, times and percentiles are reals.
- Evaluation classification, governance text, route handlers, ingestion, help pages and encryption, which hold long case lists or I/O and no deep invariant.
- PlannerParsing.UnparseableAnswersEndTheRunExactly: that no action can be read from the answer is a premise, because the parser's patterns are not modelled; the guard of the recovery is.
- PlannerAccounting.NoRetrievalKeyTwice: says nothing of the refocus retrieval, because that one does repeat its key, as the livelock shows.
- ReactExecutor.Planner.StepSchema: does not resume separately after the await of `load_columns_for_tables` (react_executor.py:767), because nothing between it and the await before it touches the state: whatever the other coroutine does at the second await it may as well do at the first.
- EpochCaching.ReactRowsAreFresh: covers only answers filed under a captured epoch, because the others can be stale, as the concrete runs show; when they are fresh, `RowIsFreshExactly` says.
- AskCaching.AskRowsAreFresh: does not cover asks whose SQL came from memory or from other rows, because those can be stale, as `AskRowCanBeStale` shows; when they are fresh, `AskRowIsFreshExactly` says.
- The execution of an ask's SQL and the wording of its answer; only the SQL answer that an ask rests on is followed.
