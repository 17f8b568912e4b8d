# A verified model of the mysqlnd query cache

`mysqlnd_qc` is a client-side query cache for PHP's mysqlnd driver. It hooks the driver's network reads: the bytes of
a result set are recorded on the way in and stored under a key made from the connection and the query text, and the
next time the same key is asked for, the recorded bytes are replayed in the place of the server's answer.

This project models that machinery in Dafny and proves what it promises. Code that updates state in place is written
as classes and methods; each method is proved to compute a function on values, and the theorems over whole runs are
about those functions.

**The cache.** A run is any finite sequence of steps of any number of connections over one shared hash table: sends
(that pass or fail), reaps, network reads of any size, store_result, use_result, closes, cache clears, cache queries
and clock ticks. A history beside the state only observes: what the servers sent, what was added and asked for, whom
the cache gave data to, and which loans were abandoned.

| file | content |
|---|---|
| `SmartStrHeap`, `StdHandler`, `Connection` | buffers, the default storage handler, one connection and its hooks |
| `Run` | the steps of a run and their history |
| `LoanScene`, `LoanSafety`, `LoanRuns` | reference counts and buffer ownership; when they hold, exactly; runs that break them |
| `Leaks` | the buffers nothing can release any more: which step loses which, exactly |
| `HookSafety` | what no run can break: hooks, buffers and read positions |
| `Recordings` | in every run, recorded bytes are the server's, however they were cut into reads |
| `CacheLog`, `Refinement`, `Transparency`, `CacheRuns` | the table refines an append-only log; replayed bytes are the server's |
| `AddPolicy` | what is cached, when and for how long, in terms of the queries that were sent |
| `StaleReplay`, `Witnesses` | when a replay answers the query last sent, exactly; two good runs that end badly |
| `Counters`, `Tallies` | conservation of the statistics; what each of them counts |
| `EndToEnd` | key and cache together |

**The query text.** Three loops over the query decide which queries share an entry and a log line.

| file | content |
|---|---|
| `Text`, `Lexer`, `Tokenizer` | scans, the token at the head of a query, the same with a moving pointer |
| `Spelling` | a query spelled out item by item is read back, token for token |
| `Strip`, `StripCanonical`, `StripMeaning` | comment and blank removal: a canonical form, and when it keeps the tokens |
| `StripPieces` | what it keeps of a query with comments of any kind in any place |
| `QueryPolicy`, `HintValues` | SQL hints in leading comments; what is in them, down to the digits |
| `HashKey` | the cache key |
| `Normalizer`, `LiteralBlind` | normalisation for the trace log, and what it forgets |
| `LogEntries`, `LogMemory` | what it remembers: which queries share a log entry, exactly |

**Beside them.** `Wildcard` and `WildcardNames` (patterns on table names against SQL's LIKE, and those of one table or
database), `ApcSlam` (slam defence of the APC storage
handler over a store with a time to live), `TraceLog` (run time statistics in 64-bit arithmetic).

## What the proofs found

Where the code does not meet a property of the cache, the property is proved under its exact condition, and a lemma
gives a run from the start that fails.

- A send that fails after a cache hit, or a reap that fails while replaying, frees the buffer the cache still owns
  (`mysqlnd_qc.c:538`, `mysqlnd_qc.c:594`): `LoanRuns.FailedSendReadsFreedBuffer`.
- A clear during a replay lets the later return decrement the counter of an unrelated new entry, which wraps:
  `LoanRuns.ClearedLoanWrapsCounter`. `LoanRuns.SafeRunIffPermittedRun` is the exact condition for both.
- A query that goes past the cache, sent by a connection that replays, leaves the replay hook in place
  (`mysqlnd_qc.c:469-480`). The server never sees the query, and its answer is read from the cache:
  `Witnesses.StatementAnsweredFromTheCache`. `StaleReplay.CurrentIffPatient` is the exact condition.
- A loan abandoned by use_result, by closing, or by sending again keeps its entry until a clear, and without slam
  defence nothing can be cached under that key any more: `CacheRuns.AbandonedLoanPinsKey`,
  `Witnesses.AbandonedLoanBlocksKey`. `CacheRuns.KeyIsFreeIff` says exactly when a key can be cached again.
- A buffer of a connection's own is lost for good when the connection is closed, or asks again without recording on, before
  it stores the result, and when nothing allows a recorded answer to be cached (`mysqlnd_qc.c:767-773`):
  `Leaks.StepLoses` says which step loses which buffer, and `Leaks.LiveBuffersAreAccounted` that no others are lost.

In the query text:

- Fixing whitespace joins operators written with a blank inside, as in `< =`, and then the query means something else:
  `StripMeaning.StripMeansTheSame` says exactly when. The setting `ignore_sql_comments` is not read by that code.
- With a bar in a database name, queries on that database share their keys with queries on another one:
  `HashKey.BarInDatabaseCollides`. `HashKey.KeysCollideIff` gives all colliding keys.
- In front of a byte it knows no token for, the tokenizer returns an empty identifier for ever
  (`Lexer.StuckReturnsEmptyIdent`), and the normaliser loops: `Lexer.LoopEndsIffLexable` says exactly when it ends.
- The text of `< < <=` in the log is that of `<< =`, and so for `>`: `LogMemory.ShiftTwin`, `LogMemory.ShiftSharesAnEntry`.
  Empty names in backticks can vanish from the text too (`LogMemory.EmptyTwin`), and blanks at the end of a query can give
  it a log entry of its own. Other queries share an entry just if their tokens leave the same marks:
  `LogMemory.SameEntryIffSameMarks`.

In the smaller parts:

- The pattern matcher accepts at the first unescaped `%`, whatever follows: `Wildcard.ExactIffManyIsLast`.
- In the APC handler, a refresh extends the time of an entry and throws the fresh data away
  (`ApcSlam.RefreshKeepsOldData`), and a refresh claimed by query_is_cached is done by nobody
  (`ApcSlam.AskedClaimIsLost`). Without slam defence, an entry that is looked up just at its deadline is stored for
  ever, never found, and never replaced: `ApcSlam.ReplaceableIffUntouched`.
- Minimum and maximum run time are forgotten after a zero sample (`TraceLog.ExtremesOfRecent`,
  `TraceLog.MinimumIsExactIff`), and the running mean can lose n(n - 1)/2 in all: on the run times 1, 2, ..., n it
  stays at 1 (`TraceLog.RampReachesTheBound`).

The model also follows these branches of the code, about which there is no lemma of their own: the tokenizer looks words
up in a table whose rows include names such as COMMENT, NUM or STRING, so that such words are read as comments or
literals; a keyword in backticks leaves its closing tick behind; a slash inside a block comment ends it, one character
early.

## Model

| member | source | states |
|---|---|---|
| StdHandler.QueryCache.QueryIsCached | mysqlnd_qc_std_handler.c:166-199 | the in-place method computes IsCached: an expired, unlent entry is destroyed on the way |
| StdHandler.QueryCache.FindQueryInCache | mysqlnd_qc_std_handler.c:203-254 | computes Find: eviction, the slam claim, the loan with its counter, or the copy |
| StdHandler.QueryCache.ReturnToCache | mysqlnd_qc_std_handler.c:295-330 | computes Return: counter down, and eviction of an expired entry that nobody else has |
| StdHandler.QueryCache.AddQueryToCacheIfNotExists | mysqlnd_qc_std_handler.c:354-398 | computes AddIfNotExists: replaces only an expired, unlent entry, and otherwise fails |
| StdHandler.QueryCache.DeleteEntry | mysqlnd_qc_std_handler.c:68-82 | the destructor frees the buffer exactly if no loan is counted |
| StdHandler.QueryCache.ClearCache | mysqlnd_qc_std_handler.c:677-687 | destroying the elements in any order leaves the state of Clear, which mentions no order |
| StdHandler.ClearAfterDelete | mysqlnd_qc_std_handler.c:677-687 | a clear does the same, faults included, whichever element goes first |
| Connection.Connection.HandleQuery | mysqlnd_qc.c:412-549 | computes SendQuery: policy, key, lookup, hooks, and the clean-up of a failed send |
| Connection.Connection.LookUp | mysqlnd_qc.c:490-515 | a hit arms the replay hook at position 0, a miss the record hook with an empty buffer |
| Connection.Connection.Abort | mysqlnd_qc_priv.h:117-222 | frees the buffer if there is one and restores the driver's own hook |
| Connection.Connection.Reap | mysqlnd_qc.c:553-603 | computes ReapQuery: without a result set the buffer goes and the hook is restored |
| Connection.Connection.Read | mysqlnd_qc.c:151-169 | computes ReceiveData: a recording appends exactly the bytes a successful read delivered |
| Connection.Connection.ReadReplay | mysqlnd_qc.c:188-204 | computes ReceiveReplay, with the unsigned availability test as the code has it |
| Connection.Connection.Store | mysqlnd_qc.c:618-785 | computes StoreResult: returns a replayed buffer, disposes of a recorded one, disarms the connection |
| Connection.Connection.StoreRecorded | mysqlnd_qc.c:706-771 | computes FinishRecord: no-table rule, conditions, choice of the TTL, add, and the counters |
| Connection.Connection.FieldWithoutTable | mysqlnd_qc.c:706-714 | the loop finds a column without a table, if that matters |
| Connection.Connection.Use | mysqlnd_qc.c:790-849 | computes UseResult: a replayed buffer is let go without a return, a recorded one freed |
| LoanSafety.SafeIffPermitted | mysqlnd_qc.c:412-849 | a step from a safe world keeps all loans in order if and only if it is permitted |
| LoanSafety.PermittedKeepsSafe | mysqlnd_qc_std_handler.c:203-398 | permitted steps keep counters equal to borrowers plus abandoned loans, and every buffer with one owner |
| LoanSafety.FailedHitBreaksSafe | mysqlnd_qc.c:533-545 | a failed send after a hit, or a counter at its maximum, always breaks it |
| LoanSafety.FailedReapBreaksSafe | mysqlnd_qc.c:591-596 | so does a reap without a result set while replaying |
| LoanSafety.ClearBreaksSafe | mysqlnd_qc_std_handler.c:315-320 | so does a clear while somebody replays |
| LoanRuns.SafeRunIffPermittedRun | mysqlnd_qc_std_handler.c:203-398 | over whole runs: safe throughout if and only if each step is permitted |
| LoanRuns.LentBuffersStay | mysqlnd_qc_std_handler.c:203-330 | a replayed buffer is live, its key leads to the entry that lent it, and that entry counts the loan |
| LoanRuns.FailedSendReadsFreedBuffer | mysqlnd_qc.c:533-545 | a run in which a replay reads a freed buffer |
| LoanRuns.ClearedLoanWrapsCounter | mysqlnd_qc_std_handler.c:302-320 | a run in which a return wraps the counter of another entry |
| Leaks.StepLoses | mysqlnd_qc.c:490-843 | a permitted step makes exactly these buffers unreachable: its own buffer if a connection closes or asks again without recording on, a copy that use_result lets go, an answer that nothing allows to be cached, and at a clear the ones never returned |
| Leaks.LiveBuffersAreAccounted | mysqlnd_qc.c:490-843 | after every permitted run a buffer is live if and only if it is cached, held by a connection, or was lost by one of those steps |
| Leaks.NothingIsLostIff | mysqlnd_qc.c:490-843 | nothing is lost at the end of a permitted run if and only if no step of it loses anything |
| Leaks.ClosedRecorderLosesItsBuffer | mysqlnd_qc.c:853-885 | a run from the start that loses a buffer: connect, send, close |
| HookSafety.HooksAreAlwaysSound | mysqlnd_qc.c:490-596 | in every run, successful or not, an armed hook has a buffer, positions stay inside, recordings are private |
| HookSafety.StepIsSound | mysqlnd_qc.c:490-843 | each step keeps that, whatever it does to loans |
| HookSafety.ReplayReadIsExact | mysqlnd_qc.c:188-204 | the availability test never wraps; a read delivers the next bytes or changes nothing |
| Recordings.StepKeepsRecordings | mysqlnd_qc.c:151-169 | each step keeps recordings live and equal to the answer so far, whatever it does to loans |
| Recordings.RecordingsAreAlwaysExact | mysqlnd_qc.c:151-169 | in every run, good or bad, a recording is exactly what the server sent since the query with its key |
| Recordings.ChunksDoNotMatter | mysqlnd_qc.c:151-169 | two reads of a recording leave what one read of all the bytes leaves |
| Refinement.StepKeepsMatches | mysqlnd_qc_std_handler.c:166-398 | each step keeps the table a refinement of the log of adds, questions and clears |
| CacheRuns.LookupsFollowTheLog | mysqlnd_qc_std_handler.c:166-254 | eviction is unobservable: lookups give what the log predicts, and query_is_cached agrees |
| CacheRuns.AskedSinceIff | mysqlnd_qc_std_handler.c:226-232 | "asked since the last add", spelled out |
| CacheRuns.SlamDefenceAdmitsOneRefresher | mysqlnd_qc_std_handler.c:212-247 | the first lookup after an add misses, every later one gets that add's data |
| CacheRuns.SlamReturnNeverEvicts | mysqlnd_qc_std_handler.c:302-314 | under slam defence a lent entry is in refresh, so returns never evict |
| Transparency.OnlyAnswersAreAdded | mysqlnd_qc.c:744-752 | in every run, good or bad, whatever is added to the cache is a server's full answer to that key |
| Transparency.StepKeepsTransparent | mysqlnd_qc.c:188-204 | each safe step keeps replays prefixes of a logged add, granted before its deadline |
| CacheRuns.ReplayIsTransparent | mysqlnd_qc.c:151-204 | replayed bytes are a prefix of a server's full answer to the key of the hit, granted before its deadline; that key is the one asked last, unless that query went past the cache |
| StaleReplay.ReplaysAreAlwaysTraced | mysqlnd_qc.c:469-545 | in every run, the latest query of a replaying connection has the key of the replay or went past the cache |
| StaleReplay.CurrentIffPatient | mysqlnd_qc.c:469-545 | in every run, replays answer the latest query throughout if and only if none is sent past the cache during a replay |
| StaleReplay.PastTheCacheReplaysOn | mysqlnd_qc.c:469-481 | such a query goes nowhere, the next read delivers the old buffer, and storing the result does not end the replay |
| Witnesses.StatementAnsweredFromTheCache | mysqlnd_qc.c:469-481 | a good run from the start in which a statement is answered from the cache |
| CacheRuns.FaithfulRunIsPermitted | mysqlnd_qc.c:587-601 | if the driver judges result sets by their bytes, reaps of replays need no assumption |
| CacheRuns.KeyIsFreeIff | mysqlnd_qc_std_handler.c:365-376 | a key with an entry can be cached again if and only if its last add is past its deadline, nobody has the buffer on loan, and under slam defence someone asked |
| CacheRuns.LateCallsFreeKey | mysqlnd_qc_std_handler.c:166-330 | without slam defence, once its time is up, a lookup, query_is_cached and a return each free a key to be cached in the same second, if and only if nobody else has the buffer on loan |
| CacheRuns.AbandonedLoanPinsKey | mysqlnd_qc.c:831-832 | an abandoned loan keeps its entry, and its key cannot be cached again, until a clear |
| Witnesses.AbandonedLoanBlocksKey | mysqlnd_qc.c:825-832 | a good run from the start that ends so, with nobody replaying |
| AddPolicy.GoesToTheCacheIff | mysqlnd_qc.c:469-515 | a query is looked up, and its connection armed, if and only if it is a SELECT to be cached or there are conditions, and it has a key; otherwise nothing is touched |
| AddPolicy.AnswerIsStoredIff | mysqlnd_qc.c:706-771 | after every run, store_result adds an answer if and only if it was recorded, the latest request and its columns allow it and its key is vacant; then for the time of the hint, of the condition, or by default |
| AddPolicy.HintsAreHonoured | mysqlnd_qc.c:737-743 | in every run, each add stands under the key of the request it answers, and for the time of its hint if that has one |
| AddPolicy.HintBoundsLookups | mysqlnd_qc.c:737-743 | without slam defence no lookup finds an answer as old as the hint of its request allows, or older |
| AddPolicy.NothingLeftToAdd | mysqlnd_qc.c:587-596 | after use_result, a reap without a result set, or a stored result there is nothing left to be added |
| Counters.StatisticsAreConserved | mysqlnd_qc.c:455-799 | misses are accounted for in every run; queries throughout a run if and only if reaps follow sends |
| Tallies.StatisticsCountEvents | mysqlnd_qc.c:455-799 | after every run each statistic is the number of events of its own kinds; a refused add counts two hits |
| EndToEnd.ReplayAnswersTheQuery | mysqlnd_qc.c:490-515 | the answer replayed to the query sent last was given over the same host, port, charset, user and database to the same stripped text |
| EndToEnd.SharersMeanTheSame | mysqlnd_qc_std_handler.c:113-129 | plain queries that share a key have the same context and the same tokens |
| Text.Scan | mysqlnd_qc_tokenize.c:1171-1174 | the scanning loop stops after the longest run |
| Text.ScanComment | mysqlnd_qc_tokenize.c:1182-1185 | the comment loop stops where CommentRun does |
| Tokenizer.NextToken | mysqlnd_qc_tokenize.c:1157-1419 | the pointer version reads the token of GetToken and stops where it does |
| Tokenizer.LexPunctuation | mysqlnd_qc_tokenize.c:1220-1324 | the switch over punctuation |
| Tokenizer.LexString | mysqlnd_qc_tokenize.c:1326-1346 | the string loop, with its look back for a backslash |
| Tokenizer.LexIdentifier | mysqlnd_qc_tokenize.c:1377-1416 | words, keywords and backticks |
| Spelling.SpelledIsRead | mysqlnd_qc_tokenize.c:1157-1419 | words, strings, numbers, operators, punctuation, comments and escapes, each written after a blank, are read back as their tokens, with code and value |
| Spelling.LookupIsFirst | mysqlnd_qc_tokenize.c:1392-1416 | a word finds the first row with its name, ignoring case, and none if and only if there is none |
| Spelling.WordTokenIs | mysqlnd_qc_tokenize.c:1392-1416 | a word has the code of that row, in the spelling of the table if the row demands it; a word in no row is an identifier with its own text |
| Lexer.GetTokenProgress | mysqlnd_qc_tokenize.c:1157-1419 | each call takes a prefix, empty exactly in front of a byte no token starts with |
| Lexer.StuckReturnsEmptyIdent | mysqlnd_qc_tokenize.c:1382-1416 | there it returns an empty identifier and stays |
| Lexer.LexableIffConsumed | mysqlnd_qc_tokenize.c:1157-1419 | a query is used up by finitely many calls if and only if a token can start at every boundary |
| Lexer.LoopEndsIffLexable | mysqlnd_qc_tokenize.c:1548-1566 | a loop that reads tokens up to NO_MORE ends if and only if that is so |
| Strip.StripCommentsAndFixWhitespace | mysqlnd_qc_tokenize.c:1424-1526 | the loop computes StripQuery, and NULL for an empty query |
| Strip.StripOnce | mysqlnd_qc_tokenize.c:1437-1519 | one turn of the loop appends and consumes what Turn says |
| Strip.KeepVersionComment | mysqlnd_qc_tokenize.c:1473-1498 | the body of a version comment is kept behind a blank |
| StripPieces.StripKeepsThePieces | mysqlnd_qc_tokenize.c:1437-1519 | with plain, line and version comments anywhere, the characters kept are those of the texts and of the bodies of the version comments, in order |
| StripPieces.VersionBodiesStandApart | mysqlnd_qc_tokenize.c:1473-1498 | the body of a version comment is kept whole, a blank apart from what is before it |
| StripPieces.BlankSurvivesIff | mysqlnd_qc_tokenize.c:1447-1464 | between two characters one blank stands for any number, unless one of them does without it |
| StripCanonical.SameTextIffSameGlyphs | mysqlnd_qc_tokenize.c:1437-1519 | equal texts if and only if equal characters with equal significant gaps |
| StripCanonical.SameShapeSameText | mysqlnd_qc_tokenize.c:1437-1466 | length and kind of blank runs do not matter |
| StripCanonical.StripIsCanonical | mysqlnd_qc_tokenize.c:1437-1519 | characters kept in order, no stray blanks, no comment marks, idempotent |
| StripMeaning.StripMeansTheSame | mysqlnd_qc_tokenize.c:1437-1466 | the tokenizer reads the same tokens off the stripped text if and only if no operator was split by blanks |
| StripMeaning.MergedHeadDiffers | mysqlnd_qc_tokenize.c:1448-1460 | a split operator always changes the token |
| QueryPolicy.QueryIsSelect | mysqlnd_qc_std_handler.c:436-477 | the loop over leading comments computes PolicyOf, on every input |
| QueryPolicy.HintsLeaveNoTrace | mysqlnd_qc_tokenize.c:1468-1515 | leading comments leave no trace in the stripped text |
| QueryPolicy.HintsAreFolded | mysqlnd_qc_std_handler.c:454-472 | the policy is the left fold of the comment bodies |
| QueryPolicy.LastHintWins | mysqlnd_qc_std_handler.c:455-469 | off by default: the last switch, the last qc_ttl and the last qc_sid win |
| QueryPolicy.OffIsAbsorbing | mysqlnd_qc_std_handler.c:455-469 | on by default: one qc=off is final and nothing else is heeded |
| QueryPolicy.HintsChangePolicyNotIdentity | mysqlnd_qc_std_handler.c:436-477 | hints change the policy of a query and leave its text alone; only a SELECT is cached |
| HintValues.AtoiReadsNumber | mysqlnd_qc_std_handler.c:458-459 | blanks, a sign and digits are read as their number, cut to 64 and then to 32 bits, whatever comes behind |
| HintValues.HintedSelect | mysqlnd_qc_std_handler.c:436-477 | a SELECT behind qc=on, qc_ttl=n and qc_sid=id in any mixture of cases is to be cached for n seconds under that id |
| HashKey.HashKeyOf | mysqlnd_qc_std_handler.c:86-129 | builds the key of GetHashKey from the text the stripping loop produced |
| HashKey.KeysSeparateContexts | mysqlnd_qc_std_handler.c:86-129 | equal keys if and only if equal host, port, charset, user, database and stripped text |
| HashKey.NoDatabaseIsEmpty | mysqlnd_qc_std_handler.c:97-98 | no database gives the key of the empty database |
| HashKey.NulEndsKey | mysqlnd_qc_std_handler.c:94-98 | the stripped text reaches the key up to its first NUL, and wholly if it has none |
| HashKey.ServerIdKeysStayApart | mysqlnd_qc_std_handler.c:94-98 | a key of a server id on one line is never that of a connection whose host has no bar |
| HashKey.ServerIdsSeparate | mysqlnd_qc_std_handler.c:94-96 | keys of server ids without a bar tell ids and texts apart |
| HashKey.KeysCollideIff | mysqlnd_qc_std_handler.c:97-98 | whatever the databases: keys are equal if and only if the other fields are and the ends agree, up to a tail moved over the bar |
| HashKey.BarInDatabaseCollides | mysqlnd_qc_std_handler.c:97-98 | every query that begins plainly, on any database with a bar and a plain tail in its name, shares its key with one on the database before the bar |
| HashKey.PrintedIsInjective | mysqlnd_qc_std_handler.c:97-98 | the %d of ports and charsets tells numbers apart |
| Normalizer.QueryTokenize | mysqlnd_qc_tokenize.c:1531-2303 | table tracking and the backward jump never reach the output, a pure rendering of the tokens |
| Normalizer.RenderOnto | mysqlnd_qc_tokenize.c:1567-2276 | the switch over the token code |
| LiteralBlind.RenderIgnoresLiterals | mysqlnd_qc_tokenize.c:2244-2261 | the rendering does not depend on the values of literals |
| LiteralBlind.TokensSwap | mysqlnd_qc_tokenize.c:1157-1419 | text before a token boundary is read the same whatever literal follows |
| LiteralBlind.StringsShareALogEntry | mysqlnd_qc_tokenize.c:1326-1346 | any string in the place of another at a boundary, in whatever quotes, gives the same normalised query |
| LiteralBlind.NumbersShareALogEntry | mysqlnd_qc_tokenize.c:1349-1375 | and any number in the place of another |
| LogEntries.NormalizedIsTextOfMarks | mysqlnd_qc_tokenize.c:1567-2288 | the normalised query is the text of the marks its tokens leave: names and operators with their values, literals as ?, comments not at all |
| LogMemory.SameEntryIffSameMarks | mysqlnd_qc_tokenize.c:1567-2288 | two plain queries share a log entry if and only if their tokens leave the same marks |
| LogMemory.EntryRemembersNames | mysqlnd_qc_tokenize.c:2155-2170 | a log entry tells which identifiers, keywords and spoken operators its plain queries have, in order |
| LogMemory.ShiftTwin | mysqlnd_qc_tokenize.c:2229-2243 | wherever marks look like a shift, in any surroundings, other marks have the same text |
| LogMemory.EmptyTwin | mysqlnd_qc_tokenize.c:2155-2170 | an empty name before a dot or comma can vanish, in any surroundings |
| LogMemory.ShiftSharesAnEntry | mysqlnd_qc_tokenize.c:2229-2243 | two queries with different marks and one log entry |
| Wildcard.MatchWild | mysqlnd_qc_user_handler.c:195-236 | the nested loops match the pattern up to its first unescaped % |
| Wildcard.LikeIsAccepted | mysqlnd_qc_user_handler.c:195-236 | every string that is LIKE the pattern is accepted |
| Wildcard.ExactIffManyIsLast | mysqlnd_qc_user_handler.c:226-228 | they agree on all strings if and only if nothing but % follows the first one |
| WildcardNames.NameIsMatched | mysqlnd_qc_user_handler.c:195-236 | an escaped name is matched by itself alone |
| WildcardNames.PrefixIsMatched | mysqlnd_qc_user_handler.c:195-236 | with a % behind it, by what begins with it |
| Wildcard.ShouldCache | mysqlnd_qc_user_handler.c:242-292 | only the first condition with patterns counts; it decides by its first pattern that covers a column, and gives its TTL |
| WildcardNames.TablePattern | mysqlnd_qc_user_handler.c:267-281 | the pattern of one table covers just the columns of that table |
| WildcardNames.DatabasePattern | mysqlnd_qc_user_handler.c:267-281 | the pattern of all tables of a database covers just the columns of these |
| ApcSlam.ApcHandler.QueryIsCached | mysqlnd_qc_apc_handler.c:195-274 | computes IsCached |
| ApcSlam.ApcHandler.FindQueryInCache | mysqlnd_qc_apc_handler.c:277-434 | computes Find: hit, claim of the refresh, or stale hit, stored back with a new time to live |
| ApcSlam.ApcHandler.AddQueryToCacheIfNotExists | mysqlnd_qc_apc_handler.c:452-612 | computes AddIfNotExists: a new entry, or an old one set free |
| ApcSlam.ApcHandler.UpdateCacheStats | mysqlnd_qc_apc_handler.c:616-896 | computes UpdateStats: stored back with the time it is still good for |
| ApcSlam.ClaimsNeedAdds | mysqlnd_qc_apc_handler.c:368-386 | in every run there is an add between two claims of an entry, even if APC drops entries |
| ApcSlam.AddStartsUnclaimed | mysqlnd_qc_apc_handler.c:489-596 | every add leaves an unclaimed entry good for its TTL, with the data of whoever added it first |
| ApcSlam.AddPassesIff | mysqlnd_qc_apc_handler.c:452-612 | an add passes if and only if APC stored it or, without slam defence, the entry was still there; what passed is there |
| ApcSlam.UnclaimedEntryWaits | mysqlnd_qc_apc_handler.c:362-373 | until then lookups are given its data up to the deadline, and the next one claims it |
| ApcSlam.RefreshWindow | mysqlnd_qc_apc_handler.c:348-411 | after a claim, lookups get the stale data up to the end of the window and nothing after it |
| ApcSlam.RefreshKeepsOldData | mysqlnd_qc_apc_handler.c:529-543 | the refresher's add keeps the old data |
| ApcSlam.AskedClaimIsLost | mysqlnd_qc_apc_handler.c:249-259 | a claim made by query_is_cached sends nobody to the server |
| ApcSlam.FrozenForEver | mysqlnd_qc_apc_handler.c:547-550 | an entry stored for ever outlasts every run that does not drop it, unfound and unreplaced |
| ApcSlam.AddedDataIsFound | mysqlnd_qc_apc_handler.c:331-411 | without slam defence the data of an add is given to every lookup up to its deadline, in every run in which APC keeps the entry; query_is_cached agrees before it, and each lookup is counted |
| ApcSlam.ReplaceableIffUntouched | mysqlnd_qc_apc_handler.c:331-406 | without slam defence an expired entry can be replaced if and only if nobody touched it just at its deadline |
| TraceLog.Entry.Update | mysqlnd_qc.c:325-348 | computes Updated, in 64-bit arithmetic, and divides by zero exactly when the counter wraps |
| TraceLog.ExtremesOfRecent | mysqlnd_qc.c:333-341 | minimum and maximum are those of the samples since the last zero |
| TraceLog.ExtremesAreExact | mysqlnd_qc.c:333-341 | without earlier zeros they are those of all samples |
| TraceLog.MinimumIsExactIff | mysqlnd_qc.c:333-341 | the minimum is right if and only if no sample, or the last one, was zero |
| TraceLog.MeanIsBounded | mysqlnd_qc.c:342 | while no step overflows, the truncated mean never exceeds the true one and loses at most n(n - 1)/2 in all |
| TraceLog.EligibleIffSampled | mysqlnd_qc.c:344 | an entry is eligible for caching from its first sample on |
| TraceLog.SumFits | mysqlnd_qc.c:342 | no step overflows if the sum of the samples fits |
| TraceLog.MeanIsBetween | mysqlnd_qc.c:342 | while no step overflows, the mean lies between the least and the greatest sample |
| TraceLog.RampReachesTheBound | mysqlnd_qc.c:342 | the bound is reached at every length |

## Left out

- HashKey.ServerIdKeysStayApart: needs a host without a bar, because with one the id could be cut at that bar.
- Normalizer.QueryTokenize: only for the queries on which the loop ends; Lexer.LoopEndsIffLexable says which those are.
- TraceLog.MeanIsBounded: only while no update overflows 64 bits; after an overflow the mean means nothing.
- StripMeaning.StripMeansTheSame: on text without comments, quotes and backslashes, which the stripper does not treat as SQL does.
- LogMemory.SameEntryIffSameMarks: for queries without empty names in backticks and without two < or > directly before <=; the log text of the others does not tell.
- Spelling.SpelledIsRead: items are written after a blank; an escape has its character, block comments hold neither star nor slash, names in backticks are in no row.
- StripPieces.StripKeepsThePieces: the bodies of block comments hold neither star nor slash.
- WildcardNames.TablePattern: for databases without a dot in their names, which the pattern cannot tell from a table.
- WildcardNames.DatabasePattern: for databases without a dot in their names, which the pattern cannot tell from a table.
- Leaks.LiveBuffersAreAccounted: over permitted runs, in which loans are in order; a buffer is not counted as lost that an entry keeps for a loan nobody returns.
- LiteralBlind.StringsShareALogEntry: the bodies of the strings hold neither their own quote nor a backslash.
- Tokenizer.NextToken: for bytes up to 127; the multi-byte characters of the charset are not modelled.
- Tokenizer.LexIdentifier: for bytes up to 127; the multi-byte characters of the charset are not modelled.
- ApcSlam.ApcHandler.QueryIsCached: not for entries with missing or ill-typed fields, which this handler never stores.
- ApcSlam.ApcHandler.FindQueryInCache: not for entries with missing or ill-typed fields, which this handler never stores.
- ApcSlam.ApcHandler.AddQueryToCacheIfNotExists: not for entries with missing or ill-typed fields, which this handler never stores.
- ApcSlam.ApcHandler.UpdateCacheStats: the statistics themselves are not modelled, only what storing them does to the entry.
- ApcSlam.RefreshWindow: assumes that APC keeps an entry for its time to live; APC itself is not part of this model.
- Prepared statements: their replay branch does not restore the driver's hook, so the invariants of plain queries do not carry over.
- The memcache, sqlite, nop, object and user storage handlers: foreign storage or callbacks.
- Per-entry statistics, run times, result metadata and row counts of the cached entries.
- Statistics are taken to be collected all the time; byte counters and time totals are not modelled.
- Bytes above 127: identifiers with multi-byte characters are not modelled. Queries are C strings read up to the first NUL when a key is built.
- The list of SQL keywords is a parameter; only that no row has an empty name is used.
- Buffer addresses are never used twice, so that a fault cannot be masked.
- One call of a connection is one step: within it, only one handler operation touches what connections share, under the handler's lock. The clock is read once a step.
- A network object used after its plugin data was freed while a hook is still set.
- Resource limits of the allocator and failures to allocate.
- "The data is fresh again after a slam refresh" is not claimed: the default handler refuses adds to a valid entry, and the APC handler keeps the old data.
