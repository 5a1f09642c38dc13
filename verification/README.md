# Elyra, modelled and proved

A Dafny model of the parts of Elyra where a mistake is easiest to make and hardest to see: SQL built from a query,
sign-in to several servers, what a live query must re-run, streamed answers and the tool loop, an assistant's text on
its way to its window, calendar dates, migrations, change reports, the cache, middleware chains and the request limit.
`dafny verify dfyconfig.toml` checks it.

Code that changes things step by step is modelled by classes and methods with loops, each ending in the state a
specification function describes; what the system promises is then proved of those functions, over every input, every
run or every interleaving. The network, the database engine, the keychain, the clocks and the model's answers are
parameters, and answer as they please.

| files | what they model |
|---|---|
| `Sql`, `QueryBuilder`, `QueryCalls`, `QueryMeaning` | clauses rendered to SQL with placeholders, read back by an SQL parser with its own precedence, against what the builder calls ask for |
| `Auth`, `AuthService`, `AuthRuns`, `AuthUsers` | servers, active server, token, parked users and keychain through sign-in, switch, leave, `401` and restart |
| `LiveKeys`, `LivePaths` | invalidation keys, as segments and as strings |
| `Json`, `OutputSchema`, `EventStream`, `StreamMeaning`, `ToolLoop`, `ToolWire` | the schema sent for structured answers, server-sent events read into a message, the tool loop, the last two also said of the JSON on the wire |
| `AssistantStream`, `Calendar` | a text buffer behind a lock with timers; day numbers to dates |
| `Ordering`, `Migrations`, `MigrationRuns` | batches applied and undone, failing anywhere |
| `ChangeHub`, `Freshness` | changed keys held until commit; tracked reads against committed writes |
| `CacheEntries`, `Cache`, `CacheRuns` | entries, caps, eviction and expiry |
| `Commands`, `CommandRegistry` | middleware groups expanded depth first |
| `Throttle` | the sliding window of admissions |

## What came out

Most promises hold as they are stated. These hold under a condition, proved to be the exact one or shown needed:

- The comment at database/src/model.rs:1007 says SQLite accepts `OFFSET` without `LIMIT`. It does not: `.offset(n)` alone
  is refused there (`OffsetAloneIsRefused`), and a built `SELECT` is read exactly when it has no such page and, but on
  SQLite, no count below zero (`SelectMeansQuery`).
- `update` lets a column through by its table's name and its own, as in `t.x`; only MySQL reads that in a `SET`
  (`QualifiedSetIsRefused`, `UpdateMeansQuery`).
- `update` and `delete` drop the query's joins, order and paging: `.limit(1).delete()` removes every row its clauses
  hold for (`WritesAreOfTheRowsRead`).
- The comment on `Stream` (framework/src/assistant.rs:364-367) says a tool step never shows before what was said
  before it. It does when a timer has taken the text and not yet sent it: `EventCanOvertakeText` is that run, and
  `EventFollowsItsText` says it is the only way. Text can overtake text in the same way (`TextCanOvertakeText`): the
  window has it in order as long as no batch is shown before an earlier one (`OrderlyTextIsInOrder`), and a batch shown
  leaves it in order exactly when it is the earliest outstanding one (`OutOfOrderExactly`).
- Leaving a server leaves exactly that one unless, and only unless, revoking its token is answered `401` and the server
  active by then, the one that takes over or the one active all along, holds the same token (`LeftLeavesOne`). Then
  that one is off the list too; `SharedTokenBreaksLeave` is a state where a token is left for a server that is not
  listed. Leaving every server is done exactly when no such answer is taken for the active one (`LeftAllExactly`).
- A sign-in keeps memory and keychain in agreement exactly when normalising its address twice changes nothing
  (`SignedInKeeps`). `"https://a/ /"` is an address where it does: the list then holds `"https://a/ "` and requests go
  to `"https://a"` (`UnsettledSignInSplits`).
- A structured output's `const`, `enum`, `default` and `examples` are rewritten as if they were schemas. They are kept
  exactly when they could be accepted ones (`DataIsKeptExactly`); `{"const": {"type": "object"}}` is not
  (`ConstIsChanged`).
- A path whose resource begins with a segment `backend:` and goes on loses that segment when a key is trimmed
  (`TrimmedExactly`).
- A write to a record re-runs the reads of it unless the record is the path's first segment (framework/src/backend.rs:1856
  asks for `i > 0`): a write to `/42` spares a plain read of `/42` and all under it (`FirstRecordIsMissed`).
  `FirstRecordSharesExactly` says what a write that begins with an id does re-run.
- Siblings are spared a record's write exactly when no record is on the way to their collection
  (`SiblingsShareExactly`).
- A rollback keeps the schema that of the migrations recorded exactly when each way back it runs leads back to where
  the migration began (`UndoneKeeps`). A SQL migration without its `.down.sql` is rolled back by forgetting it, its
  schema still there (`ForgottenMigrationStays`).
- `increment` on an entry that expired keeps the deadline it missed, so what it writes can not be read while neither
  clock is set back (`IncrementReadsBack`, `IncrementOfTheExpiredIsLost`); `increment_if_below` gives it a new one.
- A model's write inside a transaction goes through the pool: it is durable at once, and its report waits for the
  commit. A tracked run is fresh as long as none of its keys was written so, since it began, by a transaction that is
  open or was rolled back (`QuietRunsAreFresh`). And from every reachable state such a write that changes a key leaves
  a run stale with nothing sent or waiting, until a commit reports the key, and for good after a rollback
  (`PoolWriteStaysUnnoticed`, `CommitIsNoticed`).
- A caller that wakes exactly at the end of its wait is still refused, with no time to wait
  (`LetThroughAfterTheWait`); strictly after it is let through.

## Model

| member | source | states |
|---|---|---|
| QueryMeaning.QueryRunsAsBuilt | database/src/model.rs:682-1023 | for any builder calls, scope and driver, said of the calls alone: they are refused exactly for a wrong name; every argument is named once, in order; the driver's database reads the SQL exactly when it has the page; then it reads the model's columns, the joins and orders in sequence and the last limit and offset asked for, of exactly the rows that are trashed or not as asked and that every call, and every call of a scope not waived, wants |
| QueryCalls.BuiltWants | database/src/model.rs:682-849 | a row passes the clauses built exactly when it is what each call wants: its comparison with that operator, one of the values, the pattern, the null test, both bounds, or some member of a group, booleans being 1 and 0 |
| QueryCalls.BuiltAsksTheRest | database/src/model.rs:731-912 | orders and joins are the calls' in sequence, limit and offset the last ones, at least 0, and trash and scopes as said |
| QueryCalls.RefusedExactly | database/src/model.rs:677-695 | a query is refused exactly when a name is wrong, for the first one, of the calls or else of a scope not waived |
| QueryCalls.ValidExactly | database/src/model.rs:517-533 | what passes the check on a column: letters, digits and underscores, or two such with a dot between |
| QueryMeaning.OffsetAloneIsRefused | database/src/model.rs:1005-1012 | an offset behind any calls that set no limit is SQL that SQLite does not read |
| QueryMeaning.PageIsAsAsked | database/src/model.rs:1005-1012 | MySQL's limit beside an offset alone is none: the rows handed over are those from the offset on, the limit of them if so many are left |
| QueryMeaning.SelectMeansQuery | database/src/model.rs:1026-1047 | the driver's database reads a `SELECT` exactly when it has the page: with SQLite, no offset without a limit; with the others, no count below zero. Then columns, joins, order, limit and offset are the query's, and the condition keeps the rows all clauses hold for |
| QueryMeaning.UpdateMeansQuery | database/src/model.rs:1223-1256 | an `UPDATE`'s SET values take the first placeholders, its conditions the rest; it is read exactly when its columns are bare or the database is MySQL, and then sets exactly those columns of exactly those rows |
| QueryMeaning.QualifiedSetIsRefused | database/src/model.rs:1232-1238 | `t.x` passes the check on a column to set, and no database but MySQL reads it there |
| QueryMeaning.DeleteMeansQuery | database/src/model.rs:1262-1276 | a `DELETE` runs against exactly the rows its clauses hold for |
| QueryMeaning.UpdateRunsAsBuilt | database/src/model.rs:1223-1256 | for any builder calls, scope and driver, an `UPDATE` that is read sets its columns, each to its value, on exactly the rows the calls and a scope not waived want, joins, order and paging dropped |
| QueryMeaning.DeleteRunsAsBuilt | database/src/model.rs:1262-1276 | and a `DELETE` removes exactly those rows, joins, order and paging dropped too |
| QueryMeaning.WritesAreOfTheRowsRead | database/src/model.rs:1223-1276 | both are of exactly the rows that a `SELECT` of the query without its joins and paging reads, which is the query's own exactly when it has neither |
| QueryMeaning.AggregateMeansQuery | database/src/model.rs:1119-1147 | an aggregate is over the query's rows, without its order and paging |
| QueryMeaning.WhereParses | database/src/model.rs:1360-1422 | the rendered condition, read with `AND` over `OR` and `BETWEEN x AND y`, is the clause tree, whatever follows it |
| QueryMeaning.FillsWhere | database/src/model.rs:464-469 | numbered `$n` on Postgres and plain `?` elsewhere, the only ones each reads, both put each clause's values where the clause put them |
| QueryMeaning.BuiltIsWellFormed | database/src/model.rs:813-849 | no sequence of builder calls makes an empty `OR` group |
| QueryMeaning.ScopedClausesKeepWanted | database/src/model.rs:938-1023 | the conditions hold together exactly when the soft-delete scope, the global scope and each clause does |
| QueryMeaning.EmptyGroupDoesNotParse | database/src/model.rs:813-849 | an empty `OR` group would be no SQL: the guard is needed |
| QueryBuilder.OrWhereEqLoop | database/src/model.rs:813-826 | stops at the first column that is no identifier, else adds one group of all pairs |
| QueryBuilder.OrWhereLikeLoop | database/src/model.rs:835-849 | the same for patterns |
| QueryBuilder.Binder.RenderClause | database/src/model.rs:1360-1422 | appends exactly the clause's values and moves the placeholder number on by as many |
| QueryBuilder.Binder.Where | database/src/model.rs:938-1023 | the first invalid column, of the scope or the query, stops it; else the conditions of both scopes and the query, in order |
| QueryBuilder.Build | database/src/model.rs:1026-1047 | the statement, its arguments and the tables it depends on |
| QueryBuilder.AggregateSql | database/src/model.rs:1119-1147 | refuses a column that is no identifier, else the aggregate's statement |
| QueryBuilder.RecordReads | database/src/model.rs:1307-1312 | the query's table and every joined one |
| QueryBuilder.Update | database/src/model.rs:1223-1256 | nothing to set runs nothing; an invalid column stops it; else SET values are bound before the conditions |
| QueryBuilder.Delete | database/src/model.rs:1262-1276 | the statement and its arguments, or the query's first problem |
| AuthRuns.ReachableIsConsistent | framework/src/auth.rs:496-875 | in every state reached without a `401` taken for another server, tokens shared or not: the held token is the active server's kept one, every listed server has one and no other has, the kept list and active server match, and nobody active is parked |
| AuthRuns.OwnTokensAreUnmistaken | framework/src/auth.rs:806-875 | in runs where no token is two servers', none is taken for another, and kept tokens stay distinct |
| AuthRuns.UnauthorizedLeavesItsServer | framework/src/backend.rs:1412-1427 | in every interleaving where no token is two servers', a `401` changes the sign-in only if its request carried the active token, and then leaves exactly the server the request was made to; the next one takes over with its own token and whoever was parked for it, who alone leaves the parked |
| AuthUsers.KnownIsLastSeen | framework/src/auth.rs:907-944 | in every reachable state whoever is known on a server is who was last signed in or read there, and requests to it are made, and writes kept, as the last id they brought |
| AuthRuns.RestartAnywhere | framework/src/auth.rs:309-397 | a restart at any moment of any run without a `401` taken for another server restores servers, their order, the active one and its token |
| AuthRuns.WritesAreAccounted | framework/src/auth.rs:806-827 | after any run, each user's writes on each server that were ever kept for later were sent (or given up by hand), or dropped by a leave that counted them, or still wait for that user there |
| AuthRuns.QueuedWriteHoldsLeave | framework/src/auth.rs:814-821 | from a write with no answer on, through any switches, sign-ins, `401`s and restarts, until it is sent or a leave is told to drop it, leaving that server as that user is refused and changes nothing |
| Auth.RestartIsIdentity | framework/src/auth.rs:280-290 | starting on what a good state kept gives the same sign-in |
| Auth.SignedInKeeps | framework/src/auth.rs:496-657 | a sign-in that is done keeps every invariant exactly when its address is normalised for good |
| Auth.UnsettledSignInSplits | framework/src/backend.rs:1736-1738 | done with an address that is not, the list holds one server and requests go to another |
| Auth.SignInWaitsForWrites | framework/src/auth.rs:496-657 | a sign-in with a plausible token is refused exactly when it is another token of the same user on a listed server, active or not, and writes of theirs wait there |
| Auth.SwitchedKeeps | framework/src/auth.rs:718-741 | a switch is done exactly for a listed server and changes who is active and nothing about who is signed in, or known, where |
| Auth.SwitchedBack | framework/src/auth.rs:718-741 | switching away and back is no change |
| Auth.ForgottenLeavesOne | framework/src/auth.rs:1071-1104 | forgetting the active server leaves exactly it; the next kept one takes over with its own token and its own user, who alone leaves the parked |
| Auth.NextIsTheFirst | framework/src/auth.rs:1071-1104 | the next one is the first other listed server whose token is kept |
| Auth.NormaliseExactly | framework/src/backend.rs:1736-1738 | an address is normalised to itself without the white space around it and the slashes then behind it |
| Auth.LeftRefusedExactly | framework/src/auth.rs:806-826 | a leave is refused exactly for a server not listed, or for writes waiting that are not to be dropped, and else says how many it dropped |
| Auth.LeftLeavesOne | framework/src/auth.rs:806-875 | a leave refused changes nothing; one that is done leaves exactly that server, unless and only unless the `401` to revoking its token is taken for the server active by then, which holds the same token |
| Auth.SharedTokenBreaksLeave | framework/src/auth.rs:806-875 | a state where it is, and requests then carry a token for a server that is not listed |
| Auth.LeftAllExactly | framework/src/auth.rs:777-803 | with writes waiting that are not to be dropped, nothing changes; else `leave_all` is done exactly when no `401` is taken for the active server, and then nobody is signed in anywhere and every write dropped is counted |
| Auth.EveryServerLeft | framework/src/auth.rs:777-803 | with none left to leave, nobody is signed in in memory, and the keychain holds no token, no server and no list |
| Auth.StartIsConsistent | framework/src/auth.rs:309-397 | whatever the keychain holds, a start from normalised addresses is consistent |
| Auth.StartTakesItsToken | framework/src/auth.rs:309-397 | whatever the keychain holds, a start signs in with the token kept for its server, or with none, and then leaves no server listed or kept |
| AuthService.Service.SignInWithToken | framework/src/auth.rs:496-657 | the fields and keychain end as `SignedIn` says, refusals included |
| AuthService.Service.SwitchTo | framework/src/auth.rs:718-741 | they end as `Switched` says |
| AuthService.Service.LeaveServer | framework/src/auth.rs:806-875 | they end as `Left` says |
| AuthService.Service.LeaveEvery | framework/src/auth.rs:777-803 | the fields, the keychain and the count of writes dropped end as `LeftAll` says |
| AuthService.Service.Forget | framework/src/auth.rs:1071-1104 | they end as `Forgotten` says |
| AuthService.Service.constructor | framework/src/auth.rs:309-397 | a start restores each kept server whose token is still there, once |
| LiveKeys.WritesReachReads | framework/src/backend.rs:1825-1865 | where no id follows an id, a write through a record, one that is not the path's first segment, re-runs every read of it, under it, of its collection and of a part of its collection |
| LiveKeys.FirstRecordSharesExactly | framework/src/backend.rs:1852-1865 | exactly which reads a write that begins with an id re-runs: to that id alone, the root, and a record there read with its lists; under it, the reads under the same id that the rest of its path re-runs |
| LiveKeys.FirstRecordIsMissed | framework/src/backend.rs:1856-1856 | a write to `/42` re-runs no plain read of `/42`, and nothing under it |
| LiveKeys.ReadUnderDependsExactly | framework/src/backend.rs:1825-1846 | a read under a record depends on it exactly when it is the record or goes on to something that is no id |
| LiveKeys.WritesSpareOtherRecords | framework/src/backend.rs:1825-1865 | under a collection without ids, a write to or under one record re-runs no plain read of another, nor one under it |
| LiveKeys.CreatesSpareRecords | framework/src/backend.rs:1852-1865 | a create re-runs no plain read of a record of the collection |
| LiveKeys.SiblingsShareExactly | framework/src/backend.rs:1825-1865 | for any collection, siblings share a key exactly when a record is on the way to it |
| LiveKeys.SiblingsWithListsShare | framework/src/backend.rs:1825-1865 | a write to a record re-runs a sibling read with its lists |
| LiveKeys.WritesSpareResources | framework/src/backend.rs:1852-1865 | no write key is the resource key of any path |
| LivePaths.StringsShareExactly | framework/src/backend.rs:1784-1865 | the strings of a write and a read meet exactly when their keys do |
| LivePaths.SpellIsInjective | framework/src/backend.rs:1784-1816 | no two keys are spelled alike |
| LivePaths.TrimmedExactly | framework/src/backend.rs:1795-1816 | trimming the prefix is exact unless a `backend:` segment leads a longer resource |
| LivePaths.QueryStringsDependAlike | framework/src/backend.rs:1868-1871 | a read depends on the same under any query string or fragment |
| LivePaths.PiecesAreBetweenSlashes | framework/src/backend.rs:1868-1871 | a path is cut at each slash and nowhere else, empty pieces dropped |
| LivePaths.IsIdExactly | framework/src/backend.rs:1874-1883 | a segment is an id when it is digits alone, a UUID's 36 characters, or 26 letters and digits |
| LivePaths.ComputeReadKeys | framework/src/backend.rs:1825-1846 | the loops that pop and push end in the read keys, each once |
| LivePaths.ComputeWriteKeys | framework/src/backend.rs:1852-1865 | the loop ends in the write keys, each once |
| OutputSchema.OutputSchemaOf | ai/src/anthropic.rs:71-150 | the recursive rewrite with its loops is `Convert` |
| OutputSchema.ConvertFixesExactlyTheAccepted | ai/src/anthropic.rs:71-150 | the result has no refused keyword, bound or format, and every object closed, at every depth; rewriting changes a schema exactly when it was not so, and twice is once |
| OutputSchema.StaysExactly | ai/src/anthropic.rs:72-112 | the keywords that stay, the formats known and the bounds, named one by one |
| OutputSchema.ConvertKeepsKeywords | ai/src/anthropic.rs:71-150 | every keyword not moved stays, converted |
| OutputSchema.DataIsKeptExactly | ai/src/anthropic.rs:71-150 | the value of `const`, `enum`, `default` or `examples` is kept exactly when it would be an accepted schema |
| OutputSchema.ConstIsChanged | ai/src/anthropic.rs:71-150 | the constant `{"type": "object"}` comes out with `additionalProperties` |
| OutputSchema.ConvertKeepsNames | ai/src/anthropic.rs:71-150 | property and definition names all stay, and no more come |
| OutputSchema.ConvertTellsWhatMoved | ai/src/anthropic.rs:71-150 | what moved is told in the description, behind the one there was |
| EventStream.ReadStream | ai/src/anthropic.rs:412-542 | read in any chunks, the answer and the pieces told are what one pass over all the bytes gives |
| EventStream.ChunksDoNotMatter | ai/src/anthropic.rs:412-542 | other chunks of the same bytes, and an unfinished last line, change nothing |
| EventStream.LinesAreTheBytes | ai/src/anthropic.rs:427-431 | the lines and the unfinished rest are the bytes: none lost, none twice |
| EventStream.LinesAreLines | ai/src/anthropic.rs:427-429 | each line ends at its first newline |
| EventStream.FoldIsOverEvents | ai/src/anthropic.rs:431-441 | lines that hold no event change nothing |
| StreamMeaning.AnswerIsExactly | ai/src/anthropic.rs:412-542 | for any bytes, said of the events on the wire: the first that is an error, gives an input that does not decode, or sets a field of no object ends the reading, with its fault; else a lost connection, or a message that never stopped; else it is an answer, with the stop reason and details, container and token counts last said; and the pieces told are those before that, once each and in order |
| StreamMeaning.AnswerHoldsTheBlock | ai/src/anthropic.rs:445-489 | in the message returned, a block's text and thinking are what it started with and then their deltas in order, its signature the last, its citations added in order, its other fields as they were, at its place among the blocks |
| StreamMeaning.AnswerHoldsTheInput | ai/src/anthropic.rs:467-503 | from a tool's start to its stop, its input is its pieces in order, decoded; an empty object when they are blank; what it started with when there are none |
| StreamMeaning.BlockIsStartAndDeltas | ai/src/anthropic.rs:445-489 | and so it is for the reader at any moment |
| ToolLoop.Converse | ai/src/anthropic.rs:203-352 | at most `max_steps` + 501 requests; each extends the one before by the answer and at once one result per use, ids matching, in order; it ends at the first answer that does not continue it, with the result that answer calls for |
| ToolWire.Prompt | ai/src/anthropic.rs:203-365 | said of the JSON of the responses: how often it asks again and with what; what it ends with; what runs |
| ToolWire.EveryToolUseIsAnswered | ai/src/anthropic.rs:302-347 | a request goes on from the one before with the response's content as it came and, unless it paused, one result per `tool_use` item, with its id and what its tool gave or why it was not run, in the latest container |
| ToolLoop.BoundIsMet | ai/src/anthropic.rs:203-356 | a model can make it send that many |
| ToolLoop.TranscriptExtends | ai/src/anthropic.rs:203-352 | a later request begins with every earlier one |
| ToolWire.RunsAreAllowed | ai/src/anthropic.rs:331-365 | every run is of a `tool_use` item, of the first tool of its name, with its input, and code, whichever version of it, calls only what it may; every use that may run does, once and in order |
| ToolWire.TurnIsOnWire | ai/src/anthropic.rs:286-330 | a response whose tool uses are all from code, or that uses none, takes no step; a paused one, or one with a use of the model's own, takes one |
| ToolLoop.Call | ai/src/anthropic.rs:331-344 | one result per use, with its id: the tool's output, its error, or why it was not run |
| ToolLoop.Judge | ai/src/anthropic.rs:261-330 | an answer ends the loop exactly when it does not continue it, and steps and code calls are counted |
| AssistantStream.NothingIsLost | framework/src/assistant.rs:393-458 | in every interleaving with timers: each character told is in one batch, in order, of its own step; batches are shown once or in hand; waiting text has a send on its way; `said` is the latest step's |
| AssistantStream.AtRestAllIsShown | framework/src/assistant.rs:393-458 | once the turn rests and timers are done, the window has each batch of it once, in whatever order the timers sent them |
| AssistantStream.OrderlyTextIsInOrder | framework/src/assistant.rs:428-437 | while no batch is shown before an earlier one, the window has the batches in the order taken, and at rest all the text in order |
| AssistantStream.OutOfOrderExactly | framework/src/assistant.rs:428-437 | a batch shown leaves the window in order exactly when it is the earliest outstanding one |
| AssistantStream.TextCanOvertakeText | framework/src/assistant.rs:414-423 | a run where two timers send in the other order |
| AssistantStream.EventFollowsItsText | framework/src/assistant.rs:454-457 | an event shows after all said before it exactly when no timer has text in hand |
| AssistantStream.EventCanOvertakeText | framework/src/assistant.rs:454-457 | a run where it does not |
| AssistantStream.SaidIsTheLatestStep | framework/src/assistant.rs:404-412 | with steps in order, `said` is all the latest step told |
| AssistantStream.Stream.Append | framework/src/assistant.rs:394-413 | one hold of `told`'s lock: text gathered, `said` kept, a send wanted unless one is scheduled |
| AssistantStream.Stream.Take | framework/src/assistant.rs:428-433 | one hold of `flush`'s lock: what waits is taken and nothing is scheduled |
| AssistantStream.Stream.Stopped | framework/src/assistant.rs:445-450 | what a stop leaves: the message and the latest step's text, if both are there |
| Calendar.CivilCounts | framework/src/assistant.rs:1379-1390 | for every integer, the date is one of the calendar, and counting its days gives the number back |
| Calendar.CivilOfDayNumber | framework/src/assistant.rs:1379-1390 | every date of the calendar is the date of its day number |
| Calendar.CivilFollowsTheCalendar | framework/src/assistant.rs:1379-1390 | the next number's date is the next calendar day |
| Calendar.CivilBegins | framework/src/assistant.rs:1377-1390 | day 0 is 1970-01-01 |
| Migrations.Migrator.Run | database/src/migrate.rs:102-134 | the missing files are applied one transaction each, until one fails, as batch max + 1 |
| Migrations.Migrator.RunAll | database/src/migrate.rs:138-195 | a bad name or a version twice stops it before anything; else files and code in version order |
| Migrations.Migrator.RunRust | database/src/migrate.rs:248-286 | code migrations in version order, each checked as it comes |
| Migrations.Migrator.RollbackWith | database/src/migrate.rs:306-359 | the last batch is undone latest first; a version nobody knows changes nothing |
| Migrations.ByVersionIsOrdered | database/src/migrate.rs:171-171 | what is applied is in version order, and is what was pending |
| Migrations.AppliedExactly | database/src/migrate.rs:179-190 | a migration is applied exactly when nothing fails: each of its statements takes one schema to the next, in order, and it is recorded; else neither |
| Migrations.UndoneExactly | database/src/migrate.rs:344-357 | and undone likewise, its record gone |
| Migrations.ApplyFromRan | database/src/migrate.rs:176-194 | a run goes on until a migration cannot be applied, and stops there |
| Migrations.UndoFromRan | database/src/migrate.rs:342-357 | and a rollback until a way back fails |
| Migrations.GatheredExactly | database/src/migrate.rs:155-170 | the code migrations not recorded join in, up to the first with a bad version or name or a version there already |
| Migrations.ValidIdentifierExactly | database/src/migrate.rs:461-469 | a version or name is fine when it is letters, digits and underscores, at least one |
| Migrations.MissingExactly | database/src/migrate.rs:108-111 | what is pending is all that is not recorded |
| Migrations.KnownExactly | database/src/migrate.rs:329-341 | a version's way back is its code migration's, else its file's |
| Ordering.BeforeExactly | database/src/migrate.rs:171-171 | versions are ordered by the first character that differs, the shorter first |
| MigrationRuns.RunsAreOrdered | database/src/migrate.rs:454-454 | each kind of run applies its migrations in version order |
| MigrationRuns.SchemaIsTheRecordedMigrations | database/src/migrate.rs:102-359 | after any runs, and any rollbacks whose ways back, where they succeed, lead back to where their migrations began, failing anywhere, every statement of every recorded up has been run once, in order of batch and version, from the first schema to the one there is; and the table holds just those |
| MigrationRuns.LeadsBackExactly | database/src/migrate.rs:344-357 | what it is to lead back, statement by statement |
| MigrationRuns.UndoneKeeps | database/src/migrate.rs:344-357 | undoing one migration keeps that exactly when its way back leads back |
| MigrationRuns.RollbackKeeps | database/src/migrate.rs:306-359 | a rollback whose ways back lead back undoes the end of what was applied, all of the last batch unless a transaction fails |
| MigrationRuns.RollbackIsComplete | database/src/migrate.rs:306-359 | all of the last batch when its ways back succeed and no transaction fails |
| MigrationRuns.LastBatchIsTheEnd | database/src/migrate.rs:315-320 | the versions it asks for are the last batch in reverse order of application |
| MigrationRuns.RollbackUndoesTheRun | database/src/migrate.rs:102-359 | a complete run that applied something, then a complete rollback, restores schema and table |
| MigrationRuns.WaysAreKnown | database/src/migrate.rs:324-342 | a rollback goes ahead exactly when every version of the batch is known |
| MigrationRuns.ForgottenMigrationStays | database/src/migrate.rs:332-335 | without a way down the record goes and the schema stays |
| ChangeHub.Task.Report | database/src/live.rs:53-65 | inside a transaction a key is held, outside it is sent |
| ChangeHub.Task.Hold | database/src/live.rs:138-158 | committed, each key reported inside is sent once; rolled back, none; nested, they join the outer one's |
| ChangeHub.Task.Perform | database/src/live.rs:53-158 | for any nesting of reports and transactions, what is sent is each outermost commit's keys, once each, and each report outside, in order |
| Freshness.QuietRunsAreFresh | database/src/live.rs:93-113 | at every instant of every run: while no key it read was sent since it began or waits to be, nor was written since through the pool by a transaction open or rolled back, a tracked run's result is what running it again gives, and there is no other |
| Freshness.OwnConnectionMissesNothing | database/src/lib.rs:212-236 | where transactions write through their own connection, the second condition always holds |
| Freshness.PoolWriteIsUnnoticed | database/src/model.rs:1249-1254 | in any state with a transaction open, a write through the pool that changes a key leaves a run that looked at it stale, with nothing sent or waiting |
| Freshness.PoolWriteStaysUnnoticed | database/src/live.rs:138-158 | from every reachable state, it stays so while nobody else writes or reports the key, whether the transaction is open or rolled back |
| Freshness.CommitIsNoticed | database/src/live.rs:147-155 | a commit that touched the key ends that: its report waits to be sent |
| Freshness.NothingElseIsSent | database/src/live.rs:138-158 | what is sent or waiting is each commit's keys once each, and nothing of a rollback |
| Freshness.DatabaseIsTheDurableWrites | database/src/lib.rs:212-236 | after any run each key holds its last durable write: a direct one, one through the pool, or a transaction's when it commits |
| CacheRuns.ReadsTheLastWrite | framework/src/cache.rs:86-147 | after any run both caps hold, and a read answers the last value written to its key, not expired, or nothing |
| CacheRuns.WrittenIsRead | framework/src/cache.rs:101-135 | what was just written is read back exactly when it fits alone and has not expired |
| CacheRuns.WrittenLasts | framework/src/cache.rs:215-219 | written to last, it can be read from then on exactly while neither clock has come so far, if it fits alone |
| CacheRuns.IncrementReadsBack | framework/src/cache.rs:296-311 | an increment reads back exactly when it fits and its key was not there expired |
| CacheRuns.IncrementIfBelowReadsBack | framework/src/cache.rs:273-292 | a count below its limit reads back, live, absent or expired |
| CacheRuns.IncrementOfTheExpiredIsLost | framework/src/cache.rs:307-307 | an expired key's increment is never readable while neither clock is set back |
| CacheEntries.EnforcedDropsTheOldest | framework/src/cache.rs:116-135 | only expired entries go, and live ones older than every survivor, and no more than needed |
| CacheEntries.EnforcedFits | framework/src/cache.rs:116-135 | what stays is within both caps |
| CacheEntries.NewestThatFits | framework/src/cache.rs:123-134 | evicting the least recently used while a cap is passed ends in what `Enforced` says |
| Cache.Cache.Insert | framework/src/cache.rs:101-114 | the bytes counted are exactly those held, caps hold, and what is held is the entry and what stays beside it |
| Cache.Cache.EvictUntilItFits | framework/src/cache.rs:124-134 | the loop ends within the caps; its `break` is never taken |
| Cache.Cache.RetainUnexpired | framework/src/cache.rs:137-147 | exactly the live entries stay, their bytes counted |
| Cache.Cache.GetRaw | framework/src/cache.rs:195-206 | a live value, stamped; an expired entry goes |
| Cache.Cache.PutRaw | framework/src/cache.rs:215-219 | the value is written with its deadline on both clocks |
| Cache.Cache.AddRaw | framework/src/cache.rs:229-242 | stored exactly when no live entry is there |
| Cache.Cache.Forget | framework/src/cache.rs:264-266 | the key goes and no other, and whether it was there is told |
| Cache.Cache.Flush | framework/src/cache.rs:319-323 | nothing is left, and no bytes |
| Cache.Cache.Sweep | framework/src/cache.rs:351-353 | exactly the live entries are left |
| Cache.Cache.IncrementIfBelow | framework/src/cache.rs:273-292 | never counts past its limit, and changes nothing at it |
| Cache.Cache.Increment | framework/src/cache.rs:296-311 | counts from the live value or 0, keeping the deadline there was |
| Commands.LeavesWhenSound | framework/src/command.rs:158-189 | for every group graph, expanding a name ends, and succeeds exactly when no path of members from it leads to an unregistered name or back into a group it is inside |
| Commands.LeavesAreReached | framework/src/command.rs:158-189 | what it expands to are the aliases such paths lead to, all of them |
| Commands.ProblemIsOnAPath | framework/src/command.rs:158-189 | the problem told is one of a path that goes wrong: the command and the name nobody registered, or the groups all the way round |
| Commands.MembersInOrder | framework/src/command.rs:184-187 | members are expanded in their order, and stopped at the first problem |
| CommandRegistry.ResolvedExactly | framework/src/command.rs:192-201 | a command resolves exactly when its names do, to each alias they lead to once |
| CommandRegistry.CommandRegistry.Expand | framework/src/command.rs:158-189 | the stack, seen names and chain changed in place end with each alias's first occurrence, in depth-first order, or the first problem |
| CommandRegistry.CommandRegistry.Resolve | framework/src/command.rs:192-201 | the global stack, then the command's own, or the first problem |
| CommandRegistry.CommandRegistry.Finalize | framework/src/command.rs:217-226 | caches exactly the resolved chains, or, at the first command by name that has a problem, keeps what was there |
| CommandRegistry.CommandRegistry.WiringProblems | framework/src/command.rs:205-212 | the problem of every command that has one, by name |
| CommandRegistry.FirstProblemStops | framework/src/command.rs:205-226 | the check lists none exactly when the app would start; else the first it lists is what stops the app |
| Throttle.AnyMinuteHoldsTheLimit | ai/src/client.rs:267-288 | whoever asks and whenever, any closed 60 seconds hold at most the limit; the window is sorted and no longer than it |
| Throttle.WaitsExactlyWhenFull | ai/src/client.rs:267-288 | a caller waits exactly when the 60 seconds up to now hold the limit |
| Throttle.OldestIsGone | ai/src/client.rs:282-286 | waking strictly after its wait, whatever attempts came between, the oldest admission it waited for is out of the window and all in it are later |
| Throttle.LetThroughAfterTheWait | ai/src/client.rs:282-286 | alone, it is let through strictly after its wait and not before |
| Throttle.Client.Attempt | ai/src/client.rs:271-286 | one hold of the window's lock: admitted, or how long to wait |

## Left out

- SQL text below tokens: spacing, quoting and reserved words; identifiers are checked as the source checks them.
- What a database refuses behind its grammar, such as unknown tables, types that do not fit, or a column set twice; a count below zero is taken as one its SQL does not have.
- How a database compares: comparisons, `LIKE` and NULL tests are an arbitrary function of row, column and value, with three-valued `AND` and `OR`.
- Pivots, eager loading, `chunk`, `paginate` and its float division: they call the modelled query.
- Password `sign_in`: what follows a failure there depends on who else signed in meanwhile.
- A sign-in operation is one step; a keychain that fails, a user read answered after a switch, and one-server mode are not modelled.
- Unicode white space in `normalise` and in trimming: ASCII white space stands for it.
- The offline store and the outbox: only the number of writes waiting for a server and user, one its server refused among them.
- Integer widths: token counts, the LRU clock, cache counters, day numbers and window lengths do not wrap or overflow.
- A line's text and JSON: decoding a line to an event, and a tool's input to a value, are arbitrary functions; `stream`, which decodes each chunk by itself, is not modelled.
- `code_events`, usage told per step, structured output and provider tools in the tool loop.
- Time in the assistant's stream: a timer may wake at any moment after it was started.
- Migration file names: the files are taken as found, with their versions. A file that cannot be read fails its transaction.
- MySQL's auto-committed DDL: a migration and its record are one transaction.
- Versions are compared by character in the table's `ORDER BY` as in the program.
- Nested transactions in the runs of `Freshness`: a nested one opens its own connection.
- `check_write`: that a read-only run refuses writes is immediate.
- What a subscriber that lags misses: it is told so, and re-runs everything.
- Two readings of the clock in one cache operation: each operation reads the clocks once.
- Retries in `send` are not counted by the limit, and so not by the model.
- Commands' dispatch and the `Arc`s of middleware: a middleware is an opaque value.
- Telling apart, in the tool loop, a connection lost, an error inside a stream, a response that cannot be decoded and a token that cannot be had.
