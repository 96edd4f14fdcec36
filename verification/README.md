# A verified model of DataSeAI's core

DataSeAI is a database client with an AI assistant. This project models, in Dafny 4.11, the
parts of it where several pieces of code must fit together, and proves that they do:

1. **The SQL text layer.** Two families of scanners written apart (`splitSQL` for imports;
   `stripComments` and `splitTopLevel` for the write classifier, in a MySQL and a SQLite
   version), the dump printer that they must read back, and the classifier. One
   parameterised lexer (`SqlLexer`) is the specification of all scanners; each scanner is an
   imperative method proved against it. `SqlGrammar` states the same language without any
   scanning, as lists of comment, quoted and plain tokens, and `SqlReader` reads printed
   statements by MySQL's own rules (sections 9.1.1 and 9.2 of the MySQL 8.0 Reference Manual).
2. **The AI write protocol.** `handleProposeWrite`, the policy checks, the audit table and the
   pending decisions as one state machine. Any number of calls run at once; one action is one
   access to shared state; a run is any list of actions.
3. **The tool-call conversation.** The client's store and transcript, the orchestrator's turn
   loop, three provider encoders and two stream parsers, with one pairing invariant through
   all of them.
4. **Smaller stateful cores.** The WHERE and page-query builders in their bound and inlined
   forms, the connection pool, the agent registry and its channels, and the row streamers.

Each module is one `.dfy` file. `dafny verify dfyconfig.toml` checks everything.

## Reading guide

| layer | modules |
|---|---|
| helpers | `Text`, `Lists` |
| scanners | `SqlLexer` (specification), `SqlImport`, `ScannerLoops`, `MysqlScanners`, `SqliteScanners` (methods), `SqlLaws`, `SqlGrammar`, `ScannerAgreement` (laws) |
| dump and restore | `SqlPrinter`, `SqlReader`, `DumpRestore`, `Importer` |
| classifier | `MysqlClassifier` (methods), `StatementLeads`, `ClassifierLaws`, `ReadGate` (laws) |
| write protocol | `WriteProtocol` (machine), `WriteSafety`, `PolicyFlags`, `AuditLifecycle`, `AuditReasons` (results over all runs) |
| conversation | `Conversation`, `Orchestrator`, `Providers`, `ToolStreams` (code), `ProviderLaws`, `GeminiLaws`, `ConversationLaws`, `WordLaws`, `ClientStore` (laws) |
| page queries | `ClauseToks`, `WhereClause`, `PageQuery` (code), `ClauseReader` (a reader of clauses), `WhereLaws` (laws) |
| resources | `ConnectionPool`, `AgentRouting`, `RowStream` (code), `AgentRuns` (laws over all runs) |

## What came out false, and when exactly it is true

- The two scanner families do not agree on every script. `splitSQL` takes the three characters
  slash, star, slash for a whole comment; the classifier's scanner takes them for the start of
  one. The lexers read a text alike exactly when no block comment opens so
  (`ScannerAgreement.LexersAgreeExactly`; `ScannersDisagree` is a concrete script).
- A dump restores statement by statement exactly when the text that SHOW CREATE TABLE gave is a
  whole statement (`DumpRestore.DumpRestored`, and `DumpRemakes` by what the statements mean;
  `DumpNotRestored` has one that is not).
- `splitSQL(a + ";" + b)` is `splitSQL(a) + splitSQL(b)` for all `b` exactly when `a` ends
  outside quotes and comments (`SqlLaws.JoinExact`; `OpenQuoteJoins` has one that does not).
- `run_sql` is meant for a single read, but it looks at the first statement only. What it lets
  through is a single read exactly when the classifier does not report several statements
  (`ReadGate.SingleReadExactly`; `TwoReads` is a text of two).
- Gemini gets every result under the right name exactly when no call id stands for two names
  (`GeminiLaws.GeminiKeeps`, with a conversation in `NamesMixed`); the ids that
  `parseGeminiSSE` makes up have that property.
- The client's store keeps the outputs of a turn exactly when no id is used again with another
  output (`ClientStore.TurnStored`). Gemini's ids start again with every stream, so that the
  second call of a function replaces the stored output of the first
  (`ClientStore.SecondTurnOverwrites`).
- The agent's page query is the bound one with its arguments written in exactly when the schema
  asked for is `public` and, on a sorted page, both read the direction alike
  (`PageQuery.PagesAgree`, with a page in `PagesDiffer`): the agent's path always asks for
  `public` and knows only a lower-case `desc`. The WHERE clauses agree always.
- The pool's fingerprint of a tunnel is no key for all hosts: it is one for hosts without an @
  (`ConnectionPool.FingerprintTells`; `FingerprintsCollide` has two tunnels that share one).
- `dispatch` sends on a channel after it has let go of the lock. It sends on a closed one, which
  panics, exactly when the query that it was looked up for ends in between
  (`AgentRuns.PanicsExactly`; `ReaderPanics` is such a run).

## Model

| member | source | states |
|---|---|---|
| SqlImport.SplitSQL | internal/api/sql_import.go:15-93 | the five-flag loop returns exactly the statements of the reference lexer: cut at the semicolons outside quotes and comments, trimmed, the empty ones left out |
| SqlImport.TrimSQL | internal/api/sql_import.go:95-114 | the two indexes stop at the text without the four white-space characters around it |
| Importer.ImportSQL | internal/api/sql_import.go:122-153 | after the database is chosen every statement is run, in order, whatever the earlier ones came to; each is counted or reported under its number; a fatal error comes first, when nothing but the USE of the database may have been run |
| Importer.DumpImported | internal/api/sql_import.go:122-153 | importing a dump chooses the database that is given, and then runs exactly the dump's statements, which make the table again |
| Importer.ErrorsTell | internal/api/sql_import.go:140-150 | what is reported is the error of every statement that fails, under its number, in order |
| SqlLaws.SegmentsConserve | internal/api/sql_import.go:15-93 | the segments joined by the semicolons that cut them are the input again |
| SqlLaws.SegmentsUnique | internal/api/sql_import.go:15-93 | a script has exactly one reading as segments that end outside quotes and comments with semicolons between them, and the scanners find it |
| SqlLaws.JoinExact | internal/api/sql_import.go:15-93 | a script may be put in front of any other exactly when it ends outside quotes and comments |
| SqlLaws.OpenQuoteJoins | internal/api/sql_import.go:40-49 | a script that ends in an open quote takes the next one into it |
| SqlLaws.StatementsTrim | internal/db/mysql/sqlclass.go:190-198 | trimming a script first does not change its statements |
| ScannerLoops.SkipLineComment | internal/db/mysql/sqlclass.go:19-24 | the inner loop stops at the line end that the lexer stops at |
| ScannerLoops.SkipBlockComment | internal/db/mysql/sqlclass.go:25-33 | the index stays in range past its overshoot, and stands where the lexer's comment ends |
| ScannerLoops.CopyEscaped | internal/db/mysql/sqlclass.go:34-51 | the quoted token is copied byte for byte up to its closing quote |
| ScannerLoops.CopyDoubled | internal/db/sqlite/sqlclass.go:34-68 | the same with doubled closers |
| ScannerLoops.CopyBrackets | internal/db/sqlite/sqlclass.go:69-79 | the same for square brackets |
| MysqlScanners.StripComments | internal/db/mysql/sqlclass.go:13-75 | the nested loops return what the lexer keeps of the text |
| MysqlScanners.SplitTopLevel | internal/db/mysql/sqlclass.go:79-138 | the nested loops return the statements of the lexer without comments |
| SqliteScanners.StripComments | internal/db/sqlite/sqlclass.go:13-86 | the nested loops return what the lexer keeps of the text, for four kinds of quotes |
| SqliteScanners.SplitTopLevel | internal/db/sqlite/sqlclass.go:89-165 | the nested loops return the statements of the lexer without comments |
| SqlGrammar.TokenizeSound | internal/db/mysql/sqlclass.go:13-75 | every text is a list of well-formed tokens |
| SqlGrammar.StripSentence | internal/db/mysql/sqlclass.go:13-75 | on any list of tokens that reads as itself stripping removes the comment tokens and nothing else |
| SqlGrammar.CutSentence | internal/db/mysql/sqlclass.go:79-138 | the first cut stands at the first semicolon token |
| SqlGrammar.StripIsDropComments | internal/db/sqlite/sqlclass.go:13-86 | for both dialects and every text: stripped text is the text of its tokens without the comments |
| ScannerAgreement.LexersAgreeExactly | internal/db/mysql/sqlclass.go:13-75 | the import scanner's and the classifier's lexers read a text alike, piece by piece, if and only if no block comment opens with slash, star, slash |
| ScannerAgreement.SegmentsOfStripped | internal/db/mysql/sqlclass.go:13-138 | cutting the stripped text gives the stripped segments, although removing a comment may glue tokens together |
| ScannerAgreement.ScannersAgree | internal/api/sql_import.go:15-93 | stripping and cutting a script gives the non-empty results of stripping each statement of `splitSQL` |
| ScannerAgreement.ScannersDisagree | internal/api/sql_import.go:67-69 | a script on which they differ |
| SqlPrinter.EscapeMySQLString | internal/db/mysql/export.go:150-173 | the loop writes the escape sequence of every character in order |
| SqlPrinter.AnyToSQLLiteral | internal/db/mysql/export.go:124-146 | NULL, integers and byte strings get their literals |
| SqlPrinter.PrintRow | internal/db/mysql/export.go:92-96 | a row's literals, one per value |
| SqlPrinter.ExportSQL | internal/db/mysql/export.go:51-101 | what is written is the dump, and on an error of the database the part of it before |
| SqlReader.StringRoundTrip | internal/db/mysql/export.go:150-173 | reading an escaped string by MySQL's rules gives the string back and stops behind its quote |
| SqlReader.EscapeInjective | internal/db/mysql/export.go:150-173 | two strings with one escaped form are equal |
| SqlReader.IdentRoundTrip | internal/db/mysql/ident.go:7-9 | a quoted name reads back as the name |
| SqlReader.ValueRoundTrip | internal/db/mysql/export.go:124-146 | a literal reads back as its value |
| SqlReader.InsertRoundTrip | internal/db/mysql/export.go:82-96 | an INSERT line reads back as its schema, table, columns and row |
| SqlReader.UseRoundTrip | internal/db/mysql/export.go:53-58 | the USE of a dump reads back as the schema |
| SqlReader.DropRoundTrip | internal/db/mysql/export.go:59-61 | the DROP of a dump reads back as dropping that table, if it exists |
| DumpRestore.LiteralInert | internal/db/mysql/export.go:140-145 | every scanner that starts outside quotes ends a quoted literal at its last byte, outside quotes, without a cut |
| DumpRestore.InsertInert | internal/db/mysql/export.go:82-96 | the same for a whole INSERT, whatever its names and values contain |
| DumpRestore.DumpRestored | internal/db/mysql/export.go:51-101 | `splitSQL` of a dump is USE (with a schema), DROP, the CREATE text and one INSERT per row, if and only if the CREATE text is a whole statement |
| DumpRestore.DumpRemakes | internal/db/mysql/export.go:51-101 | read by MySQL's rules, the statements of a dump choose the schema (with one), drop the table, give the CREATE text and insert every row into that table, in order, if and only if the CREATE text is a whole statement |
| DumpRestore.DumpNotRestored | internal/db/mysql/export.go:62-68 | a CREATE text of two statements is not restored |
| DumpRestore.RowsRestored | internal/db/mysql/export.go:88-99 | the INSERT restored for a row reads back as that row |
| MysqlClassifier.FirstVerb | internal/db/mysql/sqlclass.go:178-188 | the two loops find the leading letters, in upper case |
| MysqlClassifier.ClassifySQL | internal/db/mysql/sqlclass.go:190-261 | classifies the first statement that the lexer finds, and says whether there are more |
| ClassifierLaws.MultiAgrees | internal/db/mysql/sqlclass.go:190-204 | refuses a script exactly when no statement of `splitSQL` has code, says several exactly when more than one has, and classifies the first that has |
| ClassifierLaws.OnePart | internal/db/mysql/sqlclass.go:190-201 | comments anywhere, white space around and a last semicolon leave a script one statement |
| StatementLeads.HeadCaptured | internal/db/mysql/sqlclass.go:168-252 | in any letter case, with any white space and any of the optional words, the matchers of the five writes capture all the text behind the keywords |
| StatementLeads.ReadCaptured | internal/db/mysql/sqlclass.go:176-176 | the pattern of a read captures all the text behind its first FROM |
| ClassifierLaws.WriteClassified | internal/db/mysql/sqlclass.go:140-261 | a script whose first statement inserts, updates, deletes, truncates or alters (any letter case, spacing and optional words; names in backticks or bare) is classified as that, on that statement's own schema and table, whatever the names contain and whatever comes after them, and as several exactly when there are more statements |
| ClassifierLaws.ReadClassified | internal/db/mysql/sqlclass.go:176-210 | one whose first statement is a SELECT is classified as a read of the schema and table behind the first FROM that stands at a word boundary |
| ClassifierLaws.NoTableClassified | internal/db/mysql/sqlclass.go:206-210 | and as a read of no table if there is no such FROM |
| ClassifierLaws.VerbDecides | internal/db/mysql/sqlclass.go:200-261 | which first words read, which are forbidden, and which alone can be each kind of write; all others are unknown |
| ClassifierLaws.InsertClassified | internal/db/mysql/sqlclass.go:140-261 | the INSERT of a dump is classified as one INSERT into its own schema and table, whatever names and values contain |
| ReadGate.RunSQLGate | internal/chat/execute.go:134-152 | the checks in front of `run_sql` compute the gate of which GateMeans says what it lets through |
| ReadGate.GateMeans | internal/chat/execute.go:134-152 | a text is let through if and only if its first statement is a read that names no database but the pinned one |
| ReadGate.ReadScope | internal/chat/execute.go:139-152 | a SELECT from a table is stopped if and only if a database is pinned, the statement names a schema and that is not the pinned one, and the answer names it; otherwise it is let through |
| ReadGate.NoTableRuns | internal/chat/execute.go:139-152 | a SELECT from no table is let through |
| ReadGate.OtherDatabase | internal/chat/execute.go:150-152 | a read of another database that is stopped |
| ReadGate.SingleReadExactly | internal/chat/execute.go:134-152 | what is let through is a single read if and only if the classifier does not report several statements |
| ReadGate.SingleReadIsOneStatement | internal/chat/execute.go:134-152 | the same by `splitSQL`: if and only if it cuts exactly one statement with code |
| ReadGate.TwoReads | internal/chat/execute.go:139-140 | a text that is let through and has two statements |
| WriteSafety.AdmittedMeans | internal/chat/propose.go:57-117 | a declaration passes the first steps if and only if its statement is single, does the declared operation on the declared table and database, and respects the pinned database |
| WriteSafety.RefusalTells | internal/chat/propose.go:57-117 | a refused declaration is told that it has several statements, that it is for another database than the pinned one, or that it is not valid, each exactly when that is so |
| WriteSafety.RunInv | internal/chat/propose.go:56-201 | every action keeps the invariant of calls, pending proposals and log |
| WriteSafety.WriteSafe | internal/chat/propose.go:180-193 | in every run a statement reaches the executor only when it is the one declared and shown, it was admitted, a policy check let it through, a proposed row was written, the user accepted that proposal, whose id was offered for this call and no other, and after that another check let it through |
| WriteSafety.OffersInv | internal/chat/propose.go:162-178 | in every run each offer has an id of its own |
| WriteSafety.OneStatementRuns | internal/chat/propose.go:69-76 | what reaches the executor is one statement for `splitSQL` too |
| PolicyFlags.ExecutedWasGranted | internal/policy/policy.go:20-45 | in every run a statement that is executed had the flag of the operation that the classifier finds in it, on the row of its own user, connection, database and table, with the user's writes switched on, before it was offered and again after it was accepted: the insert flag for INSERT, update for UPDATE, delete for DELETE and TRUNCATE, ddl for DDL |
| PolicyFlags.OffEndsDenied | internal/chat/propose.go:119-185 | in every run a call that reads a switched-off user, a missing row or a row without its flag, before the proposal or after, never executes anything, can only answer `policy_denied`, and leaves its row denied unless the store lost the update |
| PolicyFlags.EventsFit | internal/chat/propose.go:138-193 | in every run only an admitted UPDATE or DELETE that had its flag is explained, a proposal is sent only where there is a gateway, and a statement executed only where there is an executor |
| AuditLifecycle.RunInv | internal/store/ai_audit.go:26-51 | every action keeps rows, calls and log in step |
| AuditLifecycle.RowLives | internal/store/ai_audit.go:45-51 | a row records what its call declared, is born denied, or born proposed and closed at most once; its affected rows are set exactly when it is executed |
| AuditLifecycle.FinishedCallSettled | internal/chat/propose.go:156-200 | a finished call leaves no row proposed, unless the store lost the update |
| AuditLifecycle.ExecutedRowsAreRuns | internal/chat/propose.go:187-200 | at most one row and one execution per call, and executed rows match successful executions one to one, with the same count |
| AuditLifecycle.AcceptedWriteRuns | internal/chat/propose.go:119-200 | an admitted, allowed and accepted write does reach the executor, and its row tells the outcome |
| AuditReasons.StatusTells | internal/chat/propose.go:119-200 | in every run a row is executed, failed, denied or cancelled only because the executor ran the statement, it failed or there was none, a policy check turned the call down, or no acceptance reached it; and a call answers with that word only for that reason |
| Conversation.BuildTranscript | web/src/components/ChatPanel.tsx:169-199 | the nested loops build the transcript; its user messages are those of the store and, last, the new text, each with all its words; its assistant and tool messages are those of the stored answers |
| Conversation.TranscriptRoles | web/src/components/ChatPanel.tsx:172-198 | one message under `user` per message of the user, one under `assistant` per answer with words or calls, in order, one under `tool` per answer with calls, with the outputs or the placeholder, and no others; the new text is the user's, and last |
| Conversation.PairedAppend | internal/chat/orchestrator.go:116-145 | behind a paired list, a list is paired exactly when the two together are |
| Conversation.PairedAnswers | internal/chat/orchestrator.go:119-145 | in a paired list the results answer the calls one to one, in order |
| Conversation.TranscriptPaired | web/src/components/ChatPanel.tsx:179-198 | whatever is stored, calls without output included, the transcript is paired, asks for the stored calls and gives the stored outputs or the placeholder |
| Orchestrator.Listen | internal/chat/orchestrator.go:85-106 | forwards all events but end marks, up to an error, and gathers text and calls |
| WordLaws.ForwardedAre | internal/chat/orchestrator.go:85-106 | a stream is forwarded as it comes, but end marks, up to its first error |
| Orchestrator.RunTools | internal/chat/orchestrator.go:119-144 | every call is executed once, reported and recorded under its id, in order |
| Orchestrator.Turn | internal/chat/orchestrator.go:74-145 | a turn goes on exactly when it has calls and no error, and adds the reply and its results |
| Orchestrator.Run | internal/chat/orchestrator.go:46-150 | between one and MaxIterations calls of the model, each with the messages grown by the turns before, and the events of those turns |
| ConversationLaws.RequestsPaired | internal/chat/orchestrator.go:72-146 | every list passed to the model is paired if the first one is |
| ConversationLaws.RunEndsOnce | internal/chat/orchestrator.go:78-147 | every run sends exactly one end mark or error, last |
| WordLaws.EndingTells | internal/chat/orchestrator.go:75-147 | a run ends with the refusal, the stream's error, an end mark when no tool is asked for, or the error that there are no more turns |
| ConversationLaws.TurnAnswersAll | internal/chat/orchestrator.go:89-144 | a turn that goes on sends one result per forwarded call, with its id and the tool's output, in order |
| ConversationLaws.PairedEndToEnd | internal/llm/openai.go:76-122 | from any store, through any run, every provider's list is paired (Gemini's exactly when no id has two names) |
| WordLaws.WordsEndToEnd | internal/llm/openai.go:76-122 | from any store and new text, through any run, each provider gets the user's words as the user's and the assistant's as the assistant's, in order, none lost and none added |
| ConversationLaws.GeminiEndToEnd | internal/llm/gemini.go:139-153 | if all calls came from Gemini, every result goes out under the name of its call |
| ConversationLaws.ParsedSynthetic | internal/llm/gemini.go:236-245 | the calls of a parsed stream carry ids made from their names |
| ConversationLaws.SyntheticAgree | internal/llm/gemini.go:236-245 | such ids may repeat, but never under two names |
| Providers.OpenAIMessages | internal/llm/openai.go:76-122 | the nested loops compute, message by message, the list of which OpenAIKeeps says that it is paired and complete |
| Providers.CodexInputs | internal/llm/codex.go:97-146 | the nested loops compute the list of which CodexKeeps says that it is paired and complete |
| Providers.GeminiContents | internal/llm/gemini.go:81-137 | the nested loops compute the list of which GeminiKeeps says that it is complete, and when it is paired |
| Providers.ToolNameForResult | internal/llm/gemini.go:141-153 | the name in the first assistant's call with the id, or none |
| ProviderLaws.OpenAIKeeps | internal/llm/openai.go:76-122 | a paired conversation becomes a paired OpenAI list (calls are an assistant's) with the same calls, results and words under the same roles, behind the system prompt |
| ProviderLaws.CodexKeeps | internal/llm/codex.go:97-146 | every run of calls is followed by as many outputs in order, with the same calls, results and words under the same roles, the assistant's as output text and all others as input text |
| GeminiLaws.GeminiKeeps | internal/llm/gemini.go:81-153 | the same calls, results and words, each result as the JSON value that it is or else as text, and the names match exactly when no id stands for two names |
| GeminiLaws.NamesMixed | internal/llm/gemini.go:141-153 | a paired conversation with one id for two names, which Gemini gets wrong |
| ToolStreams.Merge | internal/llm/openai.go:164-184 | the map holds, per index, the last id and name and the arguments joined in order |
| ToolStreams.EmitCalls | internal/llm/openai.go:185-192 | in whatever order the map is gone through, one tool use per index comes out |
| ToolStreams.ParseOpenAI | internal/llm/openai.go:128-196 | every line sends its text and, at the end of a group, the tool uses made of that group's fragments |
| ToolStreams.InterleavingFree | internal/llm/openai.go:164-192 | only the order within each index matters for what comes out |
| ToolStreams.OneUsePerIndex | internal/llm/openai.go:185-192 | one use for each index seen, its arguments that index's fragments joined |
| ToolStreams.LastGiven | internal/llm/openai.go:170-183 | the id and the name of a call are the last ones that a fragment gave |
| ToolStreams.GroupGathers | internal/llm/openai.go:164-192 | a group gathers all fragments of its lines, in order |
| ToolStreams.NothingLeaks | internal/llm/openai.go:185-192 | nothing of a finished group is left for the next |
| ToolStreams.ParseGemini | internal/llm/gemini.go:198-255 | all text and calls up to the finish, in order, the calls numbered from one, then one end mark |
| ToolStreams.PartsReadAre | internal/llm/gemini.go:246-252 | all parts are read up to and with the first line that has a reason to finish |
| ToolStreams.SynthIdInjective | internal/llm/gemini.go:238-238 | an id tells both the number and the name it was made from |
| ClientStore.StreamStored | web/src/store/chat.ts:53-74 | text and calls that stream in add exactly those calls to the store, without outputs |
| ClientStore.StreamAdded | web/src/store/chat.ts:53-74 | a stream adds every letter and every call, in the order in which they come, to the assistant's message that ends the store, a new one if none does, and changes nothing else |
| ClientStore.OutputSet | web/src/store/chat.ts:75-83 | a result sets the outputs of all calls with its id and changes nothing else |
| ClientStore.TurnStored | web/src/store/chat.ts:66-83 | the store keeps a turn's calls always, and its outputs exactly when no id is used again with another output |
| ClientStore.SecondTurnOverwrites | web/src/components/ChatPanel.tsx:207-216 | two Gemini turns with one call of one function each, received in an empty store: after the first the store holds its output, after the second it holds the second output twice |
| WhereClause.SplitCSV | internal/db/pg/browse.go:255-268 | what stands between the commas, trimmed, without what is empty |
| WhereClause.BuildWhere | internal/api/agent_read.go:220-277 | the clause, read by the grammar of SQL, is exactly the conditions that the filters stand for, in order, with the values written in; filters without a column, a known operator or the values it needs are passed over |
| WhereClause.InlineCondition | internal/api/agent_read.go:225-271 | one filter's condition, which reads as what the filter stands for, or none |
| WhereClause.BuildPGWhere | internal/db/pg/browse.go:184-253 | the numbered clause, read with the arguments in their places, is those same conditions, and the arguments are their operands, in order |
| WhereClause.BoundCondition | internal/db/pg/browse.go:191-247 | one filter's condition with its operands numbered from the next number, which reads as what the filter stands for, and the operands |
| ClauseReader.ClauseMeans | internal/api/agent_read.go:220-277 | for every list of filters and in both forms: the clause reads as the conditions of the operator table (six comparisons, LIKE, the four patterns with their percent signs, two NULL tests, IN, BETWEEN and their negations), no more and no fewer |
| WhereLaws.SplitIsJoin | internal/api/agent_read.go:279-292 | the parts are what stands between the commas |
| WhereLaws.Filled | internal/db/pg/browse.go:184-253 | putting values in the numbered places of any well-spaced text gives the text with the values written in |
| WhereLaws.FormsAgree | internal/api/agent_read.go:220-277 | for every list of filters the bound clause with its arguments put in is the agent's clause |
| WhereLaws.ArgumentsRecovered | internal/api/agent_read.go:668-678 | the character strings of the agent's clause are the bound arguments, in order (section 5.3 of ISO/IEC 9075-2) |
| PageQuery.PerPage | internal/db/pg/browse.go:91-99 | the page size lies between one and the maximum and is the one asked for when that does |
| PageQuery.FetchQuery | internal/db/pg/browse.go:90-125 | the bound query and its arguments; read back, they ask for the rows of that page of that table, under the filters' conditions, in that order |
| PageQuery.AgentQuery | internal/api/agent_read.go:144-176 | the written-out query, which reads back as the same page of the table in schema `public` |
| PageQuery.PageReads | internal/db/pg/browse.go:90-125 | in both forms a query reads back as schema, table, conditions, sort column and direction, limit (50 if none is given, at most 10000) and offset (the pages before, in full) |
| PageQuery.PagesAgree | internal/api/agent_read.go:155-175 | the two queries are one exactly when the schema is `public` and both read the sort direction alike |
| PageQuery.PagesDiffer | internal/api/agent_read.go:155-164 | a page of another schema, on which the two queries differ |
| ConnectionPool.Pool.constructor | internal/db/pool.go:41-48 | an empty pool with nothing open |
| ConnectionPool.Pool.Get | internal/db/pool.go:53-89 | a handle that is returned is open and was opened under the cache key asked for; a fitting one is used again, another is closed first; errors leave nothing open; other keys keep theirs |
| ConnectionPool.KeyTells | internal/db/pool.go:53-56 | where no engine name and no DSN has a NUL in it, two requests have one cache key if and only if they have the same engine, DSN and fingerprint |
| ConnectionPool.FingerprintTells | internal/db/pool.go:142-147 | two tunnels whose hosts have no @ in them have one fingerprint if and only if user, host and port are the same |
| ConnectionPool.FingerprintsCollide | internal/db/pool.go:142-147 | two different tunnels with one fingerprint |
| ConnectionPool.Pool.Drop | internal/db/pool.go:62-66 | an entry's handle and tunnel are closed, once, and the entry goes |
| ConnectionPool.Pool.Evict | internal/db/pool.go:91-101 | takes out that entry only |
| ConnectionPool.Pool.EvictUser | internal/db/pool.go:103-115 | takes out exactly that user's entries |
| ConnectionPool.Pool.Sweep | internal/db/pool.go:117-132 | takes out exactly the entries that were idle for the timeout, and none if there is no timeout |
| ConnectionPool.Pool.OpenHandles | internal/db/pool.go:35-39 | the handles opened and not closed are those in the map, as many as there are entries |
| AgentRouting.Channel.TrySend | internal/agent/registry.go:75-82 | sends unless sixteen envelopes wait; never one for another id |
| AgentRouting.Conn.Subscribe | internal/agent/registry.go:51-56 | a new open channel waits under the id |
| AgentRouting.Conn.Unsubscribe | internal/agent/registry.go:56-63 | closes its own channel if it is still the waiter, else does nothing, so no channel is closed twice |
| AgentRouting.Conn.Dispatch | internal/agent/registry.go:68-83 | if nothing comes between its lookup and its send, an envelope reaches the channel waiting for its id, or none; all others are untouched (PanicsExactly takes the two apart) |
| AgentRouting.Registry.Register | internal/agent/registry.go:96-104 | the connection replaces the one before, which is closed |
| AgentRouting.Registry.Unregister | internal/agent/registry.go:106-112 | removes the connection only while it is the registered one |
| AgentRouting.RegistryHoldsLatest | internal/agent/registry.go:96-112 | after any run the registry holds for every agent the connection registered last, unless that one was removed |
| AgentRouting.SuccessorStays | internal/agent/registry.go:106-112 | removing replaced connections, however late, never removes their successor |
| AgentRouting.Receive | internal/agent/executor.go:55-104 | the rows are all batches before the arrival that ends the loop, in order; success exactly on a done message; truncated exactly when a batch reached the limit (RowsAreAccepted says what arrives) |
| AgentRouting.RowsOneByOne | internal/agent/executor.go:66-101 | arrival by arrival: a batch adds its rows, the columns add none, and anything else ends it |
| AgentRuns.RunInv | internal/agent/registry.go:51-83 | after any actions of executors and reader, every channel holds what was accepted for it and not yet taken, and it stays the waiter of its id until it is closed or replaced |
| AgentRuns.RowsAreAccepted | internal/agent/executor.go:55-104 | in every run an executor whose loop ended on an envelope, its done message above all, has exactly the rows of the batches that `dispatch` accepted for its channel before it, in order, all of its own id |
| AgentRuns.AllRowsArrive | internal/agent/executor.go:55-104 | and if `dispatch` dropped nothing for its id, these are the rows of all batches that were dispatched before it |
| AgentRuns.ChannelsBounded | internal/agent/registry.go:51-83 | in every run a channel holds at most sixteen envelopes and only its own executor closes it |
| AgentRuns.DispatchUndisturbed | internal/agent/registry.go:68-83 | a lookup and a send with nothing in between do what `Conn.Dispatch` does, and do not panic |
| AgentRuns.PanicsExactly | internal/agent/registry.go:68-83 | the send of an envelope panics on a closed channel if and only if the executor that waited for it at the lookup leaves before the send |
| AgentRuns.ReaderPanics | internal/agent/registry.go:68-83 | a run in which a canceled query makes the reader panic |
| RowStream.StreamQuery | internal/db/mysql/stream.go:19-90 | batches join to a beginning of the rows, each starts where the last ended, all but the last are full and none is empty; one final call; without error all rows and their number |
| RowStream.EmitBatch | internal/db/mysql/stream.go:92-100 | one more batch, unless the context is done |
| RowStream.Clamp | internal/api/ws.go:37-45 | the limit lies between 1 and 10000 and is the one asked for when that does |
| RowStream.StreamRowsOverWS | internal/api/ws.go:192-250 | the same batches; without error the first `maxRows` rows or all, and truncated exactly when there were more |

## Left out

- Characters: text is a sequence of characters, and a byte that is not part of valid UTF-8 stands as some character that is neither a quote, a comment mark nor white space; `sqlString` would replace it by U+FFFD, which is not modelled.
- ScannerAgreement.ScannersAgree: one direction only, because two scripts may agree statement by statement by accident; the exact condition is given piece by piece in LexersAgreeExactly.
- DumpRestore.DumpRestored: floats, times and booleans are not among the values; MySQL's own comment forms (hash marks and version comments) are not in either scanner and not in the model.
- ClassifierLaws.ReadClassified: for a FROM that is followed by a table's name; what the classifier makes of a subquery there is not stated.
- ClassifierLaws.WriteClassified: not for a bare name that spells one of the pattern's optional words; these are reserved words, which MySQL takes as names only in backticks.
- MysqlClassifier.ClassifySQL: the regular expressions are written out as matchers for their shapes; a character folds to a letter as in Go, with the two letters outside ASCII that fold to K and S.
- WriteSafety.WriteSafe: proposal ids are never drawn twice, and registering a proposal and sending it to the user are one step, so that nobody decides on an id before it was sent.
- WriteSafety.RunInv: the steps of `handleProposeWrite` are values rather than a method, because calls interleave; the decision's lookup of a channel and its send are one step; error texts and the EXPLAIN summary are not kept.
- Orchestrator.Run: the system prompt and the tool list are not part of it; channels are lists, so blocking and cancellation of the receiver are not modelled.
- Providers.OpenAIMessages: JSON values stand as their text; the HTTP request around the list, Anthropic's encoder and Codex's parser are not modelled.
- ToolStreams.ParseOpenAI: a line is given as what its JSON says; a read error ends the lines.
- ClientStore.TurnStored: for streams that send no results of their own, as the parsers' do not.
- PageQuery.FetchQuery: running the query, the row count and the other dialects are left out; page numbers do not overflow.
- ConnectionPool.Pool.Get: the lock is not modelled (each method is one step), nor closing by someone else; the loop of EvictUser and Sweep is shared, and which entries are chosen is decided before it.
- AgentRouting.Conn.Dispatch: the method runs without interruption; lookup and send are apart in the actions of AgentRuns only.
- AgentRouting.Receive: a full buffer drops envelopes, so nothing is claimed of rows that no channel accepted; in AgentRuns an executor is what it has taken, and its sending of the query is left out.
- AgentRuns.PanicsExactly: that a query's leaving does make the send panic is said for a request id that no other query uses (ids are random); the other half is said for all.
- SqlPrinter.AnyToSQLLiteral: times, booleans and floats are not among the values.
- SqlPrinter.ExportSQL: writing does not fail; the errors are those of the database.
- RowStream.StreamQuery: the sink has all its callbacks.
- The inner loops of some functions are methods of their own here (ScannerLoops, Listen, RunTools, ParseLine and others); the loops themselves are the source's.
- SQLite's `ClassifySQL`, `firstTableRef` and `unquoteIdent`: the same shapes as MySQL's, with no printer to invert.
- The scanners of the other dialects, the CSV export, catalogue queries, migrations, history, sessions, OAuth, mail, SSH and HTTP: thin or input and output only.
