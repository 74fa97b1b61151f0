# Verification of DBunny's statement splitters, assistant protocols, parsers and reducers

The model covers the parts of the application whose correctness is not visible in any one function:

- **Statement splitters** (`web/src/lib/sqlStatements.ts`). Each of the three scanners is a method with the loops of
  the source, proved equal to a specification that does not look ahead or jump: for PostgreSQL an automaton that reads
  one character at a time, for SQLite a history of tokens, for MySQL a machine over tokens. For SQLite and MySQL,
  automata over characters that know nothing of these tokens say what is quoted, what a comment and what code. About
  the specifications it is proved where scripts are cut, that every text outside comments is in exactly one range,
  that PostgreSQL scripts compose and what its strings, dollar quotes and comments hide for every content, that a
  script of SQLite triggers and other statements gives one range for each, and that a script of MySQL routines of a
  grammar of routine bodies (MySQL 8.4 manual, section 15.6) comes back as one range per routine if and only if the
  body of each has one of the shapes that the splitter sees.
- **SQL printers** (`web/src/lib/copyRows.ts`): whatever the names and values are, the printed statements are split
  into exactly those statements by the scanner of the same dialect, and a reader of them, written apart from the
  printer, gets back every table, name and value where it was.
- **The assistant's protocols** (`agent.rs`, `mod.rs`, `approvals.rs`, `tools.rs`, `assistantOpener.ts`). A class
  holds the atomic sections, those that run between two awaits or under a lock, as methods; a transition system
  interleaves them over any number of actors. The theorems quantify over every run, and say both what never happens
  and that what fails does so for a cause.
- **Parsers and their printers** (`translate.ts`, `csv.ts`, `exportData.ts`, `assistantContext.ts`, `context.rs`): round trips, with
  their exact conditions.
- **Reducers** (`documents.ts`, `assistantConversation.ts`), a **tree walk** (`plan.ts`) and a **byte budget** (`result.rs`),
  with the answer read back as JSON (RFC 8259).

Modules follow the source files; `Statements` is what the splitters share, `Text` the string functions of JavaScript.
`Statements.SplitAt(sql, cuts, keep)` cuts a script at a set of places, trims the pieces and drops those that `keep` turns down.

## Where the code does less than its documentation says

Each of these is a lemma with a concrete script or run, or for a whole family of inputs:

- PostgreSQL's block comments nest in the scanner, but not in the test that drops statements of comments only: the
  statement `/*/**/--*/1` is dropped (`PostgresStatements.NestedCommentDropsAStatement`). When those of a statement do
  not nest, all of its text is in its range (`PostgresStatements.EveryTextIsInARange`); when they do, it is exactly
  if that test leaves something of it (`PostgresStatements.CharacterIsHeldExactly`).
- A no-break space starts a word for SQLite's scanner and is a blank to the trimming. Every token that starts with a
  visible character is in a range; a word that starts with a blank is, exactly when there is something visible
  before and after its start in its statement, and the statement is kept (`SqliteStatements.TokenIsHeldExactly`).
- A MySQL routine is cut if and only if the splitter loses count in its body (`MysqlScripts.OneRangePerRoutine`; the
  shapes are `MysqlGrammar.Loses`). It does with the END of a statement that it does not see start. Such are: the body of a
  procedure or function that is an IF, WHILE, LOOP or REPEAT without a label or with a quoted one; the same as the action of a
  handler; a WHILE, LOOP or REPEAT with a quoted label anywhere, and inside a block a BEGIN with one, unless it is empty; and a
  CASE as a body or action with such a statement, or a BEGIN, first in an arm. `MysqlLimits.QuotedLabelIsCut` is a script.
- When a `start` and a later `shutdown` have both returned, the agent can still be up, because a second `start` has taken
  it to end it (`AssistantLifecycle.StillUpAfterBothReturned`); it is down once no call is ending what it took.
- `toCsv` does not quote a value with a carriage return and nothing else to quote; such a value is not read back
  (`Csv.CsvReadBack`). A text that starts with a byte order mark is not read back either.
- A tool call and the approval it matches give different conversations in the two orders when another item
  takes the approval or another card waits for the call, but not both (`ConversationRuns.OrderDoesNotMatter`).
- Renaming a relation or a schema to a name that is open gives an object two tabs (`DocumentRuns`).
- The walk of a plan does not end when a path of rows from the top comes around in a circle: to an id again, or to the id
  0. It ends if and only if none does (`Plan.EndsWithoutCircles`, for all rows); ids that are distinct and not
  0 make no circle (`Plan.OwnIdsEnd`).
- The answer for the agent exceeds 32 KiB when the columns alone leave too little room; the exact bound is in
  `AgentResult.AnswerFits`.

## Model

| member | source | states |
|---|---|---|
| Statements.PushStatement | web/src/lib/sqlStatements.ts:24-29 | adds the trimmed piece between two places unless it is empty or the test turns it down |
| Statements.SplitAtIsWellSplit | web/src/lib/sqlStatements.ts:24-29 | for every set of cuts the ranges are in bounds, not empty, trimmed at both ends, in order and at least one character apart |
| Statements.SplitAtIsThePieces | web/src/lib/sqlStatements.ts:24-29 | the ranges are exactly the kept pieces of the stretches between two consecutive cuts, both directions |
| Statements.PlaceIsHeld | web/src/lib/sqlStatements.ts:24-29 | a character that is no cut is in a range if and only if its stretch is kept and it is visible or has something visible on both sides in its stretch |
| Statements.HasTextIsNotBlank | web/src/lib/sqlStatements.ts:28 | a left-to-right test for text outside comments agrees with removing the comments and testing for anything but blanks |
| Statements.StatementAt | web/src/lib/sqlStatements.ts:458-467 | the first range that holds the cursor or ends right before it, else the last that ends before it, else the first; none only for no ranges |
| Statements.StatementAtItsEnd | web/src/lib/sqlStatements.ts:454-467 | in a well split script the cursor in a statement past its first character, at its end or on its semicolon finds that very statement |
| PostgresSplitter.SplitPostgres | web/src/lib/sqlStatements.ts:394-452 | the scanner with lookahead and jumps cuts exactly at the semicolons that a character-by-character automaton (strings, E-strings, quoted names, comments with depth, dollar quotes with their tag) meets in code |
| PostgresSplitter.SkipBlockComment | web/src/lib/sqlStatements.ts:413-424 | the nesting loop ends where the automaton leaves depth zero, or at the end |
| PostgresSplitter.SkipQuoted | web/src/lib/sqlStatements.ts:425-436 | the loop over a string or a quoted name ends in the automaton's code state or at the end, escapes only after a separate `E` |
| PostgresSplitter.SkipDollar | web/src/lib/sqlStatements.ts:437-443 | searching the closing tag as a whole jumps to where the automaton has seen the tag again |
| PostgresStatements.RangesLieBetweenCuts | web/src/lib/sqlStatements.ts:394-452 | the ranges are exactly the kept pieces between consecutive semicolons in code, and are well split |
| PostgresStatements.SplitComposes | web/src/lib/sqlStatements.ts:394-452 | if `a` ends in code, splitting `a;b` gives the ranges of `a` followed by those of `b`, shifted |
| PostgresStatements.KeptWhenFlat | web/src/lib/sqlStatements.ts:403-404 | when block comments do not nest, a text is kept if and only if it is more than blanks and comments or its last comment is not closed |
| PostgresStatements.EveryTextIsInARange | web/src/lib/sqlStatements.ts:394-452 | every visible character outside of comments that is no cutting semicolon is in exactly one range, when the block comments between the cuts around it do not nest |
| PostgresStatements.CharacterIsHeldExactly | web/src/lib/sqlStatements.ts:398-405 | with nesting too: a visible character is in a range if and only if something visible is left of its statement once what reads like comments without nesting is taken out |
| PostgresStatements.AllTextIsInRanges | web/src/lib/sqlStatements.ts:394-452 | so in a script whose block comments do not nest no text is lost |
| PostgresStatements.NestedCommentDropsAStatement | web/src/lib/sqlStatements.ts:403-404 | with nested comments a statement with code can be dropped: a concrete one |
| PostgresTexts.EscapeStringIsWhole | web/src/lib/sqlStatements.ts:426-436 | `E'…'` with any text, its quotes and backslashes escaped by backslashes, hides every semicolon: with words before it, it is the first range of every script that goes on with a semicolon behind it, and the rest is split as if alone |
| PostgresTexts.PlainStringIsWhole | web/src/lib/sqlStatements.ts:425-436 | the same for a string without the `E`, or with a word character or `$` before it, and for a quoted name, with any text whose quotes are doubled: backslashes escape nothing |
| PostgresTexts.DollarBodyIsWhole | web/src/lib/sqlStatements.ts:437-443 | the same for `$tag$ body $tag$` with every tag and every body that does not come to its tag earlier |
| PostgresTexts.ParameterIsWhole | web/src/lib/sqlStatements.ts:439-443 | `$1` opens nothing |
| PostgresTexts.DollarsInANameAreWhole | web/src/lib/sqlStatements.ts:440 | `a$b$` opens nothing |
| PostgresTexts.LineCommentIsSkipped | web/src/lib/sqlStatements.ts:410-412 | a line comment with any text hides its semicolons, and the line after it does not |
| PostgresTexts.NestedCommentIsSkipped | web/src/lib/sqlStatements.ts:413-424 | so do block comments nested to any depth |
| SqliteSplitter.ReadName | web/src/lib/sqlStatements.ts:49-58 | the four words and the two flags say after each name what the whole token history of the statement says |
| SqliteSplitter.SplitSqlite | web/src/lib/sqlStatements.ts:45-118 | the scanner cuts exactly at the semicolons that separate by the token history; what these are in characters and statements is `SqliteTexts.SeparatorsAreCode` and `SqliteTriggers.OneRangePerStatement` |
| SqliteStatements.TriggerEndsAfterSemiEnd | web/src/lib/sqlStatements.ts:31-35 | inside a trigger the statement ends at exactly the first semicolon whose two significant tokens before are a semicolon and END |
| SqliteStatements.RangesLieBetweenCuts | web/src/lib/sqlStatements.ts:60-117 | the ranges are exactly the kept pieces between consecutive separating semicolons, and are well split |
| SqliteStatements.KeptWhenItShows | web/src/lib/sqlStatements.ts:23-29 | a stretch between two cuts gives a range if and only if it has a token that is more than blanks, or a block comment that is not closed |
| SqliteStatements.TokenIsHeldExactly | web/src/lib/sqlStatements.ts:45-118 | a token is in a range if and only if it starts with a visible character, or has something visible before and after its start in its statement and that is kept |
| SqliteStatements.EveryTokenIsInARange | web/src/lib/sqlStatements.ts:60-117 | every token that starts with a visible character and is no separating semicolon starts in exactly one range, for every script |
| SqliteStatements.BlankWordIsLost | web/src/lib/sqlStatements.ts:37-38 | a word that starts with a no-break space is lost: two concrete scripts |
| SqliteTexts.SemicolonsAreCode | web/src/lib/sqlStatements.ts:60-99 | a semicolon is a token of its own if and only if an automaton over characters, apart from the tokens, is in code there |
| SqliteTexts.SeparatorsAreCode | web/src/lib/sqlStatements.ts:96-110 | statements end only at such semicolons |
| SqliteTexts.EveryTextIsInARange | web/src/lib/sqlStatements.ts:45-118 | every visible character that is neither in a comment by that automaton nor a separating semicolon is in exactly one range, for every script |
| SqliteTriggers.TriggersHaveAHeader | web/src/lib/sqlStatements.ts:31-35 | after any tokens the statement counts as a trigger if and only if its names start with one of the six headers, spelled out |
| SqliteTriggers.OneRangePerStatement | web/src/lib/sqlStatements.ts:31-118 | a text whose tokens are those of triggers, each with its header, a head, BEGIN, any non-empty list of statements with their semicolons and END, and of statements with another start, comes back as exactly one range for each; nothing of it names the state of the scanner |
| MysqlLexer.ReadToken | web/src/lib/sqlStatements.ts:143-176 | the loop past blanks and comments finds the token that the specification names; what that is in characters is `MysqlTexts.NextIsText` |
| MysqlTexts.NextIsText | web/src/lib/sqlStatements.ts:143-176 | what the loop goes past is blanks and comments that MySQL does not run, by an automaton over characters that knows nothing of tokens; the token itself has none of these |
| MysqlSplitter.Current.ReadWord | web/src/lib/sqlStatements.ts:327-388 | one word of a routine changes the record (blocks, flags, previous token) as the machine over tokens says, which does not see the text |
| MysqlSplitter.Current.ReadContent | web/src/lib/sqlStatements.ts:314-388 | one token of a statement changes the whole record and the position as the specification says |
| MysqlSplitter.ReadNext | web/src/lib/sqlStatements.ts:279-388 | one token, separators and DELIMITER lines included: the new record, the ranges pushed, and where to go on |
| MysqlSplitter.SplitMysql | web/src/lib/sqlStatements.ts:246-392 | the loop over a mutable record computes the specified ranges |
| MysqlStatements.SplitIsWellSplit | web/src/lib/sqlStatements.ts:246-312 | the ranges are in bounds, not empty, trimmed, in order and apart, DELIMITER lines included |
| MysqlStatements.EveryTokenIsInARange | web/src/lib/sqlStatements.ts:278-391 | every token that is read and does not separate starts in exactly one range |
| MysqlCoverage.EveryTextIsInARange | web/src/lib/sqlStatements.ts:143-312 | every visible character that is outside of comments by that automaton, or in a DELIMITER line, and does not separate is in exactly one range, for every script |
| MysqlCoverage.SeparatorsAreCode | web/src/lib/sqlStatements.ts:282-293 | statements end only at semicolons that are neither quoted nor in a comment of any kind, one that MySQL runs included |
| MysqlCoverage.EverySemicolonSeparates | web/src/lib/sqlStatements.ts:282-293 | in a script without the letters CREATE they end exactly at those that are in no DELIMITER line |
| MysqlCoverage.EveryRangeHasText | web/src/lib/sqlStatements.ts:248-252 | no range has only blanks and comments |
| MysqlCoverage.RunCommentIsAStatement | web/src/lib/sqlStatements.ts:152-155 | `/*! … */` with any text in it is one range |
| MysqlCoverage.CommentBeforeIsInTheRange | web/src/lib/sqlStatements.ts:290-291 | a comment in front of a statement belongs to its range, whatever is in it |
| MysqlCoverage.DelimiterLineIsAStatement | web/src/lib/sqlStatements.ts:295-311 | a DELIMITER line is a range up to its end, whatever is in it, and the next statement starts there |
| MysqlDumps.DelimiterAfterRoutine | web/src/lib/sqlStatements.ts:296-311 | a DELIMITER line on the line after a routine that ended in `$$` ends the routine and is a range of its own |
| MysqlScripts.HeaderIsRecognised | web/src/lib/sqlStatements.ts:182-228 | every proper prefix of a routine header is too short to tell, and the whole header is recognised |
| MysqlScripts.RecognisedIsHeader | web/src/lib/sqlStatements.ts:182-228 | conversely, whatever is recognised starts with a header of the grammar |
| MysqlBodies.ExprLeads | web/src/lib/sqlStatements.ts:353-375 | reading an expression, CASE expressions and columns named like keywords included, leaves the block stack as it was |
| MysqlBodies.StmtLeads | web/src/lib/sqlStatements.ts:327-388 | by structural induction, reading a statement of a body leaves the block stack as it was and cuts nowhere |
| MysqlBodies.StmtsLeads | web/src/lib/sqlStatements.ts:283-289 | a statement list read inside a block ends with the same stack, at the start of a statement, without a cut |
| MysqlShapes.UnseenLeads | web/src/lib/sqlStatements.ts:346-375 | a statement that is not seen to start, inside CASE statements that count as expressions, closes exactly as many of them as its shape says, and cuts the routine when those are all |
| MysqlShapes.BodyEndsOrCuts | web/src/lib/sqlStatements.ts:346-380 | a body of a procedure or function ends its routine with its own semicolon if it is a block, labelled, simple, or a CASE with neat arms; else a semicolon in it does |
| MysqlLosses.StmtFalls | web/src/lib/sqlStatements.ts:327-388 | from any blocks, and whether it is seen to start or not, a statement leaves the blocks as they are if its shape does not lose count, and else closes at least one around it or ends the routine before its semicolon |
| MysqlLosses.NeatArmsLose | web/src/lib/sqlStatements.ts:353-355 | a CASE that counts as an expression loses no count if and only if each arm starts with a simple or labelled statement or such a CASE |
| MysqlLosses.RoutineEndsOrCuts | web/src/lib/sqlStatements.ts:239-392 | a routine of the grammar goes on up to the semicolon after it if its body does not lose count, and else is cut in its body |
| MysqlScripts.OneRangePerRoutine | web/src/lib/sqlStatements.ts:239-392 | a text whose tokens are those of n routines of the grammar, handlers with any action and quoted labels included, each with its semicolon, is split into the n trimmed texts of its routines if and only if no body loses count |
| MysqlPrinting.PrintedRoutines | web/src/lib/sqlStatements.ts:239-392 | printing n routines, with any spelling of words and quoted names, gives exactly n ranges that cover them, under the same condition |
| MysqlShapes.ConditionalIsCut | web/src/lib/sqlStatements.ts:354-355 | a body that is an IF without BEGIN or label is cut in the first statement of its list, whatever that is, or right after it |
| MysqlShapes.WhileIsCut | web/src/lib/sqlStatements.ts:377-378 | a body that is a WHILE is cut right after the first statement of its list, whatever that is |
| MysqlShapes.LoopIsCut | web/src/lib/sqlStatements.ts:356-358 | a body that is a LOOP is cut in the first statement of its list, or right after it |
| MysqlShapes.RepeatIsCut | web/src/lib/sqlStatements.ts:356-358 | so is a body that is a REPEAT |
| MysqlLimits.QuotedLabelIsCut | web/src/lib/sqlStatements.ts:336-342 | a concrete script with a quoted label: it reads as one routine of the grammar, and its ranges are not its text |
| Pens.WritesIdent | web/src/lib/copyRows.ts:31-33 | a quoted name is one quoted text for every name |
| Pens.WritesLiteral | web/src/lib/copyRows.ts:35-48 | a literal closes every quote it opens and has no semicolon outside quotes, for every value |
| Pens.WritesUpdate | web/src/lib/copyRows.ts:71-75 | the same for an UPDATE of a pending change |
| Pens.WritesInsert | web/src/lib/copyRows.ts:51-58 | the same for an INSERT |
| PostgresRows.PostgresCuts | web/src/lib/sqlStatements.ts:394-452 | PostgreSQL's scanner cuts a printed script exactly at the semicolons the printer wrote outside quotes |
| SqliteRows.SqliteCuts | web/src/lib/sqlStatements.ts:45-118 | so does SQLite's |
| MysqlRows.MysqlCuts | web/src/lib/sqlStatements.ts:246-392 | so does MySQL's |
| PrintedRows.SplitStatements | web/src/lib/sqlStatements.ts:17-21 | runs the scanner of the dialect |
| PrintedRows.OneRangePerChange | web/src/lib/copyRows.ts:61-77 | the printed updates come back as one range per change in all three dialects, and each range is the text of its UPDATE, which `SqlReadBack.ChangesComeBack` reads |
| PrintedRows.OneRangePerInsert | web/src/lib/copyRows.ts:51-58 | the printed INSERT comes back as exactly one range, which is its text |
| SqlRoundTrips.NameIsRead | web/src/lib/copyRows.ts:31-33 | reading undoes quoting a name, for every name and dialect |
| SqlRoundTrips.ValueIsRead | web/src/lib/copyRows.ts:40-48 | reading undoes printing a value, for every value and dialect |
| SqlRoundTrips.UpdateIsRead | web/src/lib/copyRows.ts:71-75 | what is read of an UPDATE is its schema and table, the new values from the SET list and the key from the WHERE list |
| SqlRoundTrips.InsertIsRead | web/src/lib/copyRows.ts:51-58 | what is read of an INSERT is its schema and table, its columns and its rows |
| SqlReadBack.ChangesComeBack | web/src/lib/copyRows.ts:61-77 | printed, split by the scanner of the dialect and read, the changes come back one by one with their table, new values and key, for all names and values |
| SqlReadBack.RowsComeBack | web/src/lib/copyRows.ts:51-58 | so do the columns and rows of an INSERT |
| AgentRequests.Shared.FetchId | src-tauri/src/assistant/agent.rs:208 | gives the counter out and moves it on, and changes nothing else |
| AgentRequests.Shared.Insert | src-tauri/src/assistant/agent.rs:209-210 | registers the sender under its id, and changes nothing else |
| AgentRequests.Shared.Remove | src-tauri/src/assistant/agent.rs:213 | takes out what waits under an id, if anything does |
| AgentRequests.Shared.Drain | src-tauri/src/assistant/agent.rs:230 | empties the map and gives out what was in it |
| AgentRequests.StepKeepsInv | src-tauri/src/assistant/agent.rs:204-240 | the invariant (where each sender is; ids below the counter and never shared) is kept by every atomic step of requests and reader |
| AgentRequests.NoneParkedAfterDrain | src-tauri/src/assistant/agent.rs:228-240 | in every run, once the map has been drained an id left in it belongs to a request that is before its second check or about to withdraw |
| AgentRequests.NoneLeftBehind | src-tauri/src/assistant/agent.rs:204-240 | once the agent has gone every request that is still under way can take a step that brings it closer to its return; one that is parked has its answer |
| AgentRequests.AnswersAreForTheirRequests | src-tauri/src/assistant/agent.rs:276-282 | a request gets an answer only if that carries its id, and no two requests have the same id |
| AgentRequests.ResolvedOnce | src-tauri/src/assistant/agent.rs:204-240 | in every continuation of a run what was sent for an id, and what a request returned, never changes |
| AgentRequests.FailsForACause | src-tauri/src/assistant/agent.rs:204-240 | in every run a request fails only when the agent is gone or its own message could not be written |
| AgentRequests.AnswerArrives | src-tauri/src/assistant/agent.rs:276-282 | the first message with the id of a parked request resolves it with exactly that message |
| AssistantLifecycle.Assistant.Take | src-tauri/src/assistant/mod.rs:181-187 | takes what runs out of the slot unless it is what is wanted and ready |
| AssistantLifecycle.Assistant.Settle | src-tauri/src/assistant/mod.rs:230-239 | puts the new agent in the slot exactly when no shutdown has counted up since the counter was read |
| AssistantLifecycle.Assistant.Bump | src-tauri/src/assistant/mod.rs:266 | counts up, and changes nothing else |
| AssistantLifecycle.InExactlyOnePlace | src-tauri/src/assistant/mod.rs:178-273 | in every run of starts and shutdowns each agent and tool server ever launched is in the slot, held by one call, or ended: exactly one of these |
| AssistantLifecycle.NothingStaysUp | src-tauri/src/assistant/mod.rs:228-248 | when a start and a shutdown that counted up after the start read the counter have returned, what the start launched is ended or being ended by a call that took it |
| AssistantLifecycle.AllDownInTheEnd | src-tauri/src/assistant/mod.rs:178-273 | and once no start and no shutdown is ending what it took out of the slot, it is ended |
| AssistantLifecycle.StillUpAfterBothReturned | src-tauri/src/assistant/mod.rs:181-191 | not as soon as those two have returned: a run where a second start still holds the agent |
| AssistantLifecycle.EndedForACause | src-tauri/src/assistant/mod.rs:178-273 | in every run what a start launched is ended only when it was taken out of the slot, its agent did not come up, or a shutdown counted up in the meantime |
| AssistantLifecycle.StartFillsTheSlot | src-tauri/src/assistant/mod.rs:228-242 | a start whose agent came up with the counter unchanged puts it in the slot and lets go of the lock |
| ConversationOpener.ConversationOpener.Invalidate | web/src/lib/assistantOpener.ts:29-31 | a new generation, nothing else changes |
| ConversationOpener.ConversationOpener.Receive | web/src/lib/assistantOpener.ts:34-38 | the update is kept behind those of its conversation exactly when an opening is under way |
| ConversationOpener.ConversationOpener.Begin | web/src/lib/assistantOpener.ts:42-43 | an opening becomes the newest and is counted |
| ConversationOpener.ConversationOpener.Resolve | web/src/lib/assistantOpener.ts:46-61 | the state with the kept updates replayed in order, or nothing and the conversation closed when it is not the newest; the counts and the kept updates after it |
| ConversationOpener.EveryRunCounts | web/src/lib/assistantOpener.ts:12-63 | in every run as many openings are counted as wait, and nothing is kept while none does |
| ConversationOpener.NewestWins | web/src/lib/assistantOpener.ts:48-51 | an opening gives out its conversation if and only if no opening or invalidation came after it; otherwise it is closed |
| ConversationOpener.GivenOutOrClosed | web/src/lib/assistantOpener.ts:41-62 | in every run the times a conversation was given out or closed are the times the backend opened it |
| ConversationOpener.ReplayIsComplete | web/src/lib/assistantOpener.ts:45-54 | a fresh conversation that wins is given out with all updates received for it, in the order of arrival |
| ApprovalGate.Approvals.Ask | src-tauri/src/assistant/approvals.rs:43-48 | registers the request under its id, and changes nothing else |
| ApprovalGate.Approvals.Answer | src-tauri/src/assistant/approvals.rs:51-56 | resolves the request that waits under the id, if any; true only when there was one and it was still listened to |
| ApprovalGate.Approvals.DeclineAll | src-tauri/src/assistant/approvals.rs:59-67 | the loop over the ids of the conversation declines them all |
| ApprovalGate.DeclinesItsOwn | src-tauri/src/assistant/approvals.rs:59-67 | declining resolves every request waiting in the conversation and touches no other, waiting or answered |
| ApprovalGate.NothingRunsUnapproved | src-tauri/src/assistant/tools.rs:144-193 | in every run a statement that was read or analyzed had passed the reading check, and in a conversation that asks its own request was granted or reads had been allowed in the same conversation |
| ApprovalGate.RefusedForACause | src-tauri/src/assistant/tools.rs:144-186 | in every run a call is turned down only for the reading check, an analysis where only the schema is shown, a database that cannot be read, or Decline to its own request |
| ApprovalGate.AllowedGoesAhead | src-tauri/src/assistant/tools.rs:155-162 | in every continuation a call whose own request got another answer is past the gate |
| ApprovalGate.ReadsAreAllowed | src-tauri/src/assistant/tools.rs:157-160 | with ReadsInChat it may run only once reads are allowed in its conversation, and they stay allowed |
| ApprovalGate.NotAskedAgain | src-tauri/src/assistant/tools.rs:145-147 | in every continuation of a run that allowed reads in a conversation, no call that comes in later asks there |
| ApprovalGate.NeverAsked | src-tauri/src/assistant/tools.rs:145-147 | where the conversation does not ask, no call ever does |
| ApprovalGate.AnswerIsReceived | src-tauri/src/assistant/tools.rs:155-162 | in every run a call that waits has its request registered or answered, and an answer given now is the one it gets |
| ApprovalGate.ResolvedOnce | src-tauri/src/assistant/approvals.rs:43-67 | in every continuation of a run an answer that was sent is never replaced |
| ApprovalGate.DeclineAllAnswersAllWaiting | src-tauri/src/assistant/approvals.rs:59-67 | in every run `decline_all` gives every request waiting in the conversation its answer and leaves those of others |
| PendingContext.Conversation.Take | src-tauri/src/assistant/mod.rs:384-388 | takes the context along and empties the slot |
| PendingContext.Conversation.Finish | src-tauri/src/assistant/mod.rs:389-393 | a context the agent has not seen waits again |
| PendingContext.InExactlyOnePlace | src-tauri/src/assistant/mod.rs:380-394 | in every run of overlapping prompts the context waits, is held by exactly one prompt, or was delivered by exactly one message |
| PendingContext.DeliveredOnce | src-tauri/src/assistant/mod.rs:389-393 | in every continuation of a run the message that delivered the context keeps it, nothing else has it, and every later prompt sends its text alone |
| PendingContext.TheNextPromptCarriesIt | src-tauri/src/assistant/mod.rs:380-394 | in every run a prompt carries the context if and only if no other prompt has it and no message has delivered it |
| ContextBlock.Strip | web/src/lib/assistantContext.ts:6-15 | the rewriting loop terminates with the stripped text |
| ContextBlock.NoMarkerLeft | web/src/lib/assistantContext.ts:8 | no opening marker is left, for every text |
| ContextBlock.StripUndoesContext | src-tauri/src/assistant/context.rs:40-42 | for every beginning of a message from the opening marker on, stripping gives the text without trailing blanks |
| ContextBlock.StripUndoesContextExactly | web/src/lib/assistantContext.ts:6-15 | stripping undoes adding if and only if the text has no opening marker, for a context without the closing one |
| AssistantConversation.AttachApproval | web/src/lib/assistantConversation.ts:184-193 | the loop finds the last tool call that takes the approval; a known approval changes nothing |
| ConversationRuns.HappenKeeps | web/src/lib/assistantConversation.ts:106-208 | each event keeps every tool call and approval shown at most once and adds exactly its own text to what its speaker has said |
| ConversationRuns.EveryRunKeeps | web/src/lib/assistantConversation.ts:106-208 | in every run tool ids and approval ids occur at most once, and what the agent said, what the person said and what was thought are each all their texts joined in order |
| ConversationRuns.EveryRunShows | web/src/lib/assistantConversation.ts:130-132 | in every run the title is the last one given and the agent is answering exactly between a message and the end of its turn |
| ToolHistory.EveryRunIsRight | web/src/lib/assistantConversation.ts:134-165 | in every run exactly the tool calls that came in are shown, each with the last name, input, status and non-empty text that was given, the time it came in and the first time an update said it had ended |
| ToolHistory.ToolShowsTheLast | web/src/lib/assistantConversation.ts:134-165 | the same for the item that looking up an id finds |
| ApprovalHistory.EveryRequestIsShown | web/src/lib/assistantConversation.ts:184-208 | in every run a request for approval is shown exactly once, with all that it asks, from when it came until its own answer, and no other is shown |
| ApprovalHistory.ShownWhereItFitted | web/src/lib/assistantConversation.ts:111-113 | in every run a tool call shows a request only if at some moment it showed it while it had the tool and the statement that the request names and had not ended |
| ApprovalHistory.GoesToTheLast | web/src/lib/assistantConversation.ts:187-192 | a new request goes to the last tool call that it fits and that has none, and nothing else changes |
| ApprovalHistory.StandsAlone | web/src/lib/assistantConversation.ts:191 | it is an item of its own when there is none |
| ApprovalHistory.TakesTheFirst | web/src/lib/assistantConversation.ts:157-162 | a new tool call takes over the first request that stands alone and that it fits |
| ConversationRuns.OrderDoesNotMatter | web/src/lib/assistantConversation.ts:157-163 | an approval and the new tool call it matches give the same conversation in both orders if and only if another item takes the approval exactly when another card waits for the call |
| RichText.Parse | web/src/i18n/translate.ts:86-111 | the loop with its stack of frames parses as the specification does |
| RichText.ShowUndoesParse | web/src/i18n/translate.ts:85-111 | printing what was parsed gives back every text, unclosed and mismatched tags included |
| RichText.ParseIsNormal | web/src/i18n/translate.ts:74-83 | at no level are there two adjacent texts or an empty one |
| RichText.ParseUndoesShow | web/src/i18n/translate.ts:85-111 | parsing gives back every such tree whose texts hold no complete tag |
| Csv.ParseCsv | web/src/lib/csv.ts:2-44 | the character loop reads the rows the specification says, mark and blank lines left out |
| Csv.ReadBackExactly | web/src/lib/csv.ts:2-44 | a printed table is read back without its blank rows if and only if it does not start with a byte order mark and no value holds an unquoted carriage return |
| CsvFiles.FileIsRead | web/src/lib/csv.ts:2-44 | the rows of any file are read, fields with quotes or without, the three line ends in any mix, with or without a byte order mark |
| Csv.TsvReadBack | web/src/lib/copyRows.ts:16-22 | `rowsToTsv` is read back if and only if its text does not start with a byte order mark |
| Csv.CsvReadBack | web/src/lib/exportData.ts:5-18 | `toCsv` is read back if and only if besides that any value with a carriage return also has a comma, quote or line feed |
| Documents.NewDocument | web/src/lib/documents.ts:110-124 | the fields filled step by step are those the kind of target has |
| Documents.OpenedTwice | web/src/lib/documents.ts:80-98 | what was opened is in front and shows the target, and opening it again opens no other tab |
| Documents.CloseDocuments | web/src/lib/documents.ts:144-166 | the index loops compute the tabs that stay and the one in front |
| Documents.FrontIsNearest | web/src/lib/documents.ts:143-165 | the tab that comes to the front is the first to the right that stays, else the first to the left |
| Documents.ClosedTwice | web/src/lib/documents.ts:144-166 | closing some tabs and then others is closing them all at once, front tab included |
| Documents.OneByOneIsAtOnce | web/src/lib/documents.ts:139-166 | closing any list of tabs one after another, in any order, is one batch closing |
| Documents.Without | web/src/lib/documents.ts:227-233 | the loop closes the matching tabs one after another |
| Documents.WithoutIsOneClosing | web/src/lib/documents.ts:227-241 | which is one batch closing of exactly the tabs that match |
| DocumentRuns.EveryRunIsValid | web/src/lib/documents.ts:76-246 | in every run ids are distinct and below the next one, and the front tab is open, or none exactly when no tab is |
| DocumentRuns.RenameRelationKeepsOneTabEach | web/src/lib/documents.ts:204-213 | a rename keeps one tab for each object if and only if the new name was not open |
| DocumentRuns.RenameSchemaKeepsOneTabEach | web/src/lib/documents.ts:215-225 | the same for a schema |
| DocumentRuns.NoObjectHasTwoTabs | web/src/lib/documents.ts:67-246 | in every run whose renames go to names not open no object has two tabs |
| DocumentTabs.OpensWhatIsAsked | web/src/lib/documents.ts:67-133 | what is open already (by kind, schema, name and signature, written out for each kind) comes to the front as it is, asked for the new filters; anything else gets a tab of its own at the end |
| DocumentTabs.TitlesNameWhatIsShown | web/src/lib/documents.ts:90-225 | in every run, renames of tables and schemas included, a tab's title is the name of what it shows |
| DocumentTabs.DropsTheTable | web/src/lib/documents.ts:227-237 | exactly the data and structure tabs of a table go when it is dropped |
| DocumentTabs.DropsTheSchema | web/src/lib/documents.ts:239-241 | exactly the tabs of a schema go when it is dropped |
| Plan.SqlitePlanRows | web/src/lib/plan.ts:125-142 | terminates for every parent links, circles included, with the pre-order walk as lines |
| Plan.PathIsShort | web/src/lib/plan.ts:135-141 | the measure: no chain of parents below the top is longer than the number of rows |
| Plan.ShownExactly | web/src/lib/plan.ts:125-142 | a row is shown at a depth if and only if its chain of parents reaches the top in that many steps |
| Plan.NoRowTwice | web/src/lib/plan.ts:134-141 | no row is shown twice |
| Plan.InReadingOrder | web/src/lib/plan.ts:122-124 | every line below the top comes after its parent with only deeper or equal lines between |
| Plan.SiblingsInOrder | web/src/lib/plan.ts:129-133 | rows of the same parent are shown in the order of the plan |
| Plan.AllShownOnce | web/src/lib/plan.ts:125-142 | when every chain reaches the top the lines are a permutation of the rows |
| Plan.EndsWithoutCircles | web/src/lib/plan.ts:125-142 | for all rows, repeated ids and ids of 0 included, the walk ends if and only if no path from the top comes to an id again, or to 0 |
| Plan.OwnIdsEnd | web/src/lib/plan.ts:125-142 | it ends when ids are distinct and not 0, however the parent links run |
| Plan.ZeroIdNeverEnds | web/src/lib/plan.ts:135-141 | with an id of 0 at the top no depth is enough for the walk |
| AgentResult.Answer | src-tauri/src/assistant/result.rs:17-44 | the rows shown are the longest prefix within the limit and the budget, `rowCount` is their number, `truncated` holds exactly when there are more or some row was left out; with hidden values the text depends on the columns and the counts alone |
| AgentResult.LongestIsOne | src-tauri/src/assistant/result.rs:29-37 | there is only one such prefix |
| AgentResult.SizeOfAnswer | src-tauri/src/assistant/result.rs:39-43 | what the keys, commas, note and digits add to the columns and the rows, in bytes |
| AgentResult.AnswerFits | src-tauri/src/assistant/result.rs:25-43 | the answer is at most 32 KiB if and only if the columns with an empty list of rows fit, so always when the margin of 200 bytes is left |
| AgentResult.ShownWhole | src-tauri/src/assistant/result.rs:57-60 | a text is shown unchanged exactly up to 500 characters, or when what is cut off is a single ellipsis |
| AgentResult.BinaryShowsItsSize | src-tauri/src/assistant/result.rs:47-56 | of binary values that the read has not described already only the size is shown |
| AgentResult.HexIsMeasured | src-tauri/src/assistant/result.rs:64-68 | the size of a binary value in hexadecimal is half the number of its digits |
| JsonText.PrintedIsRead | src-tauri/src/assistant/result.rs:43 | reading what was printed gives back every JSON value, escapes, nested arrays and objects included |
| JsonText.DigitsStandFor | src-tauri/src/assistant/result.rs:39 | a number is printed in the digits that stand for it, with no zero in front |
| AgentReading.AnswerIsLearned | src-tauri/src/assistant/result.rs:17-44 | what a reader of JSON gets out of the answer: all columns, exactly the first rows with each value as it is shown, their number, and the flag; a note exactly with the flag |
| AgentReading.HiddenIsLearned | src-tauri/src/assistant/result.rs:20-23 | where values are hidden: the columns, the count, the flag and no rows |

## Left out

- Text is a sequence of Unicode scalar values; JavaScript's UTF-16 code units, and so the surrogate halves that the word classes of the scanners accept one by one, are not modelled (characters above U+FFFF are word characters).
- `toUpperCase` in the SQLite scanner is ASCII upper-casing; a word such as one with U+0131 that JavaScript would turn into a keyword is not.
- PostgresStatements.EveryTextIsInARange: for statements whose block comments do not nest, because otherwise it is false (`PostgresStatements.NestedCommentDropsAStatement`); the exact condition is in `PostgresStatements.CharacterIsHeldExactly`.
- MysqlScripts.OneRangePerRoutine: names that the splitter could take for keywords. Without quoted labels, and with a block as the action of each handler, they are excluded only where the splitter does not see a statement start (a column `begin` or `end`, or `IF(` or `REPEAT(` right behind a DO); with those, in the whole routine. Such a name can open or close a block by accident.
- MysqlPrinting.PrintedRoutines: prints no comments; `MysqlScripts.OneRangePerRoutine` is for every text with these tokens, comments and all.
- MysqlCoverage.EverySemicolonSeparates: for scripts without the letters CREATE; where a script with routines is cut is in `MysqlScripts.OneRangePerRoutine`.
- PostgresTexts.EscapeStringIsWhole: this and its neighbours put only words and a blank in front; whatever is in front, the scanner is in code there or not by `PostgresSplitter.SplitPostgres`.
- SqliteTriggers.OneRangePerStatement: a statement that is no trigger has no semicolon token, as a semicolon would end it, and neither has one in the body of a trigger.
- MySQL tokens of the kind `/*! … */` are read by the scanner but are not part of the grammar of routines.
- The Rust splitter `db/mysql_common/split.rs` is not part of this model, and no agreement with it is claimed.
- Values in printed SQL are numbers, booleans, null and texts; how JavaScript prints a number or an object as JSON is a parameter, a number consisting of the characters a JavaScript number can have. The reader of what was printed takes numbers of one character or more.
- The order of the columns in a pending change is that of the record; that JavaScript puts integer-like keys first does not matter for the ranges, and what is read back is in the order of the text.
- Identifiers and counters are unbounded: the wrap-around of `next_id` and `shutdowns` at 64 bits is not modelled.
- What `write`, `launch`, the tool server and the backend do is any success or failure; the texts of errors and the status events are not modelled.
- Dropping the future of a `start`, `shutdown` or `prompt` half-way is not modelled; that of a request or of an approval is (`Abandon`).
- `Assistant.Settle` compares the counter and fills the slot in one step, under the lock that a shutdown needs to look at the slot; a count in between is the same as one right after.
- `check_reading` is an arbitrary predicate of the statement. The plan of an EXPLAIN and how it is cut are not modelled, nor is permission asked for by the agent itself.
- A `session/update` is modelled after its fields have been read; the code that finds the tool's name, its input and its text in the JSON, and removes a code fence around it, is not part of this model.
- `rowsToJson`, `detectDelimiter`, `looksLikeHeader`, `matchColumns`, `interpolate`, `pick` and the formatters: single expressions.
- A row without fields is printed as an empty line and counts as a blank row in the round trips.
- `flattenPlan` and `mysqlPlanRows`: walks of a tree that is already given as a tree.
- Plan.SqlitePlanRows: requires ids that are distinct and not 0, as SQLite gives them; for which other rows the walk ends is `Plan.EndsWithoutCircles`, and with repeated ids rows can be shown twice.
- `agent_result`: how a number is printed, and how many bytes a base64 text decodes to, are parameters; a value is any JSON value. The reader takes no surrogate pairs written as escapes, which are never printed, and accepts as a number any text of the characters of one.
- `database_context`, prompts, profiles, workspaces, storage, drivers, the MCP server, and the user interface.
