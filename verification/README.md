# Verified model of ilios

ilios is a Ruby extension in C over the DataStax driver for Cassandra. This project
models the code between Ruby and the driver, and proves what it promises to a program.
The driver, the server and the Ruby VM are environment: a future resolves once, at any
moment, with success or a refusal; a semaphore counts; a mutex is not reentrant; a driver
statement is a partial map from parameters to values plus options; a server is a function
from messages to pages that may refuse any request.

## The parts

**Futures, callbacks and the two thread pools** (`Future*.dfy`). `FutureState` has one
future and its atomic updates, with a log of what happened to it. `FutureMachine` is the
transition system: any number of futures, application threads, nested callbacks and pool
workers, one program counter each, with the driver free to resolve a future between any
two steps. `FutureLocal` and `FutureInvariant` prove the invariant; `FutureTheorems`,
`FutureProgress` and `FutureTermination` draw the conclusions: at most one callback and of
the right kind, exactly one at quiescence, no lost wakeup, queue discipline, worker supply,
deadlock freedom and termination. `FutureHistory` shows that the log says what happened,
and `FutureTally` counts over states. `FutureRegistrations` says exactly when a second
registration is refused, and `FutureAwait` exactly when await is ordered after the
callback. `FutureWitness` and `FutureStranded` have the runs that show hypotheses to be
needed, for any blocks and any number of futures. `FutureObjects` has the C functions as
methods on mutable objects, proved to do what the steps do.

**Binding and replay** (`BindValues`, `BindLog`). One round of `hash_cb` as a function of
key and value, and log compaction: exactly when the insertion-ordered hash replays, and
when the replay is what the scratch statement has seen.

**Handles, execution and paging** (`Paging`, `Ledger*.dfy`, `Cassandra`). `Ledger` has the
driver's handles with an owner each and a count of frees, and what every operation does to
them, as total functions; a misuse of the driver (a dead handle, a statement set while it
is being encoded, a result of an unresolved future) sets a flag, and a second free shows in
the count. `LedgerMachine` runs all operations of a session, the driver and the garbage
collector in any order; a waiting call is two steps. `LedgerInvariant` and `LedgerTheorems`
prove single ownership, isolation of executions in flight, and paging; `LedgerReplay` joins
log compaction, queries and setters to what executions send after whole runs, and
`LedgerProgress` shows that every page can be reached from any state. `Cassandra` has the
structs as classes whose methods refine the functions of `Ledger`, and the paging loop of a
program.

**Rows and timestamps** (`Rows`, `Timestamp`). `result_convert_row` with the typed round
trip from bind to a row read back, for all column types and values, and the arithmetic of
timestamps in both directions. The write lemmas hold for every rounding that is monotone,
exact on integers up to 2^53, and within relative error 2^-53 (round to nearest, section
4.3.1 of IEEE 754-2008), and for every Time#to_f that is exact on whole seconds and within
two such roundings.

`Inv` in the theorems about runs holds in every reachable state (`ReachableInv` in
`FutureInvariant` and in `LedgerInvariant`), so they speak of runs from any such state.

## Where the code and its documentation differ

- README.md:119-167 shows `await` as the way to wait for callbacks, with a block for each
  outcome. A registration that finds the future resolved posts the semaphore even if it
  calls nothing (future.c:235 and 292), so `await` can return before the due callback was
  called (`AwaitCanReturnBeforeTheCallback`), and another thread's registration can let it
  return during the callback (`AwaitCanReturnDuringTheCallback`). What a program can rely on
  is `AwaitAfterOneRegistration`: one block only, registered before the await. That is also
  the exact condition (`AwaitOrderedIffOneBlockBefore`). It is the first await that is
  ordered; one made after it returns at once (`LaterAwaitReturnsAtOnce`).
- future.c:258 says a second `on_success` raises. The test is made without the mutex
  (future.c:267), so two threads can both pass it: `RacingRegistrationsBothPass`. A block
  can be overwritten exactly while some thread is past that test
  (`OverwrittenIffPastTest`); once none is, every later registration raises
  (`LaterRegistrationRaises`). A program that has one registration for each block field in
  all its code is safe (`NoDuplicates`), and `AtMostOneCallOfTheRightKind` holds for any.
- The replay of bound values is right if and only if the names used resolve to different
  parameters (`ReplaysRightIffNamesApart`). Names are not case-sensitive to the driver, so
  `id` and `ID` break it (`CaseReplaysWrong`).
- `bind` accepts an object whose `to_time` answers with a number, and from then on every
  execution raises until the key is bound again: `RaisesUntilBoundAgain`,
  `ExecutionsRaiseUntilBoundAgain`, and `ReplayRaisesIffLastUnaccepted` for the exact
  condition.
- A Time with milliseconds can be stored one millisecond nearer zero
  (`OneMillisecondIsLost`). Exactly whole seconds are safe whatever way to_f is computed
  (`StoredAsIsIffWholeSecond`), and eighths of a second if it rounds once
  (`StoredAsIsIffOnGrid`).

## Hypotheses

- `DeadlockFree` and `MaximalRunsDeliverEverything`: callbacks of prepare futures touch
  only execute futures, callbacks of execute futures touch none, all code of the program
  together registers at most once for each block field, and fewer than five callbacks raised
  in a pool since its last push. `CrossedCallbacksDeadlock` and
  `RaisingCallbacksStrandTheQueue` show the first and the last of these to be needed.
- The theorems on await leave interrupts of its wait out: an unblock post is a permit too.
- `LogCompaction` and `ExecutionsSendTheScratch`: the names accepted resolve to different
  parameters. That the replay raises nothing needs no such hypothesis.
- One thread uses a Result at a time, and does not call `next_page` from inside `each`.
- A future's success block is called once, so the hand-over happens once. `LedgerMachine`
  takes this from `FutureTheorems.AtMostOneCallOfTheRightKind`.
- Ruby conversions of values are pure: to_str, to_int, to_f and to_time answer the same
  whenever they are asked.

## Model

| member | source | states |
|---|---|---|
| `Timestamp.ReadIsExact` | ext/ilios/result.c:177-183 | For every signed 64-bit value the truncating split stands for exactly that instant, with both parts of one sign, microseconds under a second, and no overflow |
| `Timestamp.ReadIsMonotone` | ext/ilios/result.c:177-183 | Reading keeps the order of instants and never maps two values to one Time |
| `Timestamp.ProductIsClose` | ext/ilios/statement.c:136 | Up to 2^51 ms, and with to_f within two roundings of the instant, the rounded product is less than one millisecond off |
| `Timestamp.WriteErrorBound` | ext/ilios/statement.c:128-137 | Up to 2^51 ms, a Time is stored as its millisecond value or one millisecond nearer zero |
| `Timestamp.WholeSecondsAreExact` | ext/ilios/statement.c:136 | Whole seconds are stored exactly while the milliseconds fit 53 bits, whatever way to_f is computed |
| `Timestamp.WriteStaysInSecond` | ext/ilios/statement.c:136 | The stored value stays between the Time and its whole second |
| `Timestamp.RewritingStaysInSecond` | ext/ilios/statement.c:136 | Any number of rounds of reading and binding again: each round moves only toward zero from the one before, and none crosses the whole second |
| `Timestamp.OneMillisecondIsLost` | ext/ilios/statement.c:136 | With IEEE rounding, 1001 ms is stored as 1000 ms: the bound is reached |
| `Timestamp.OneMillisecondIsSaved` | ext/ilios/statement.c:136 | The product is rounded before it is truncated: the double for 9 ms lies below it, and yet 9 is stored |
| `Timestamp.StoredAsIsIffWholeSecond` | ext/ilios/statement.c:128-137 | Exact condition: up to 2^51 ms a Time is stored as it is under every rounding and every to_f within two roundings if and only if it is a whole second |
| `Timestamp.StoredAsIsIffOnGrid` | ext/ilios/statement.c:128-137 | The same for to_f in one rounding that is exact on doubles with k binary digits after the point: exactly the Times on that grid, which from k = 3 on are the multiples of an eighth of a second |
| `Timestamp.TwoRoundingsAreClock` | ext/ilios/statement.c:136 | A to_f that makes a count of nanoseconds a double and then divides is within the two roundings that these lemmas allow |
| `Timestamp.NearestDoubles` | ext/ilios/statement.c:136 | The doubles of these two examples are within half a unit in the last place of the exact values |
| `BindValues.KeptValueReplays` | ext/ilios/statement.c:54-149 | An accepted value, as kept, is accepted again with the same bound value if and only if it is settled, which only an object's to_time can fail |
| `BindValues.KeptEntryReplays` | ext/ilios/statement.c:35-172 | The same for a whole entry: the normalised key is a key of the same name |
| `BindValues.NumericToTimeDoesNotReplay` | ext/ilios/statement.c:128-137 | An object whose to_time answers with a number is bound, but what is kept of it can never be replayed |
| `BindValues.WhatIsBound` | ext/ilios/statement.c:54-155 | What the driver is given has the column's type, and for integers its width, and is the value itself for integers, strings and UUID texts; nil is null in every column, and in a boolean column only false and nil are not true |
| `BindValues.WhatIsRaised` | ext/ilios/statement.c:48-159 | Which exception each refused value raises, with the bounds of each type in numbers |
| `BindValues.WhatIsKept` | ext/ilios/statement.c:128-169 | An object is kept as its text in text and UUID columns and as the answer of its to_time in timestamps; every other value is kept as it came |
| `BindValues.KeysTaken` | ext/ilios/statement.c:43-46 | Keys are symbols, strings and what converts to one; NUL raises ArgumentError, anything else TypeError |
| `BindValues.PageSizesTaken` | ext/ilios/statement.c:264-272 | page_size= takes what fits a 32-bit int, floats by their integer part, and raises RangeError or TypeError otherwise |
| `BindLog.StoreIsLastWrite` | ext/ilios/statement.c:162-169 | Overwriting a kept entry in its old place is worth binding it last, when no other kept name shares a parameter |
| `BindLog.BindOne` | ext/ilios/statement.c:162-169 | An accepted entry sets the parameters of its name, and only these, and is kept under that name |
| `BindLog.BindInTwo` | ext/ilios/statement.c:251-255 | A hash can be bound in two parts, the second only if the first raised nothing |
| `BindLog.BindStopsAtTheFirst` | ext/ilios/statement.c:251-255 | The first entry that raises ends a bind with its exception: those before it stay, those after it do nothing |
| `BindLog.BindRaisesIff` | ext/ilios/statement.c:251-255 | A bind raises exactly if some entry does, and with the exception of the first of them |
| `BindLog.BindKeepsCompacted` | ext/ilios/statement.c:231-256 | Any bind, completed or raised part-way, over names that do not alias leaves the scratch statement exactly what the last accepted value of each name makes of it |
| `BindLog.RunsKeepCompacted` | ext/ilios/statement.c:231-256 | So do any number of binds |
| `BindLog.RunsKeepRecorded` | ext/ilios/statement.c:162-169 | Whatever is bound, raised binds and aliases included: the hash has exactly the names under which something was accepted, each once, with what was kept of its last value |
| `BindLog.ReplayRaisesIff` | ext/ilios/statement.c:180-186 | A replay raises exactly if some entry of the hash does, whatever it replays into |
| `BindLog.ReplayRaisesIffLastUnaccepted` | ext/ilios/statement.c:180-219 | After any binds over any names, aliases included: a replay raises if and only if, under some name, what was kept of the last accepted value is not accepted again |
| `BindLog.ReplayNeverRaises` | ext/ilios/statement.c:180-219 | Validate once, replay always: if the last accepted values are settled, a replay raises nothing, whatever the names resolve to, and binds each name to the value its last accepted entry was bound to |
| `BindLog.RaisesUntilBoundAgain` | ext/ilios/statement.c:128-169 | After an accepted numeric to_time every replay raises, through any further binds, until one accepts something under that name again |
| `BindLog.LogCompaction` | ext/ilios/statement.c:180-219 | Exact: after any sequence of binds, raised ones included, over names that do not alias, replaying the hash raises nothing and gives exactly the scratch bindings, null and unset kept apart, if and only if the last value accepted under each name is settled |
| `BindLog.SymbolsAndStringsMerge` | ext/ilios/statement.c:43-46 | A symbol and a string of the same text are one key, and the later value takes the earlier one's place |
| `BindLog.AliasedNamesReplayWrong` | ext/ilios/statement.c:162-169 | For any two names sharing a parameter and any two values they accept: after binding one, the other and the one again, the scratch statement holds the first value and the replay, raising nothing, sends the second |
| `BindLog.ReplaysRightIffNamesApart` | ext/ilios/statement.c:162-219 | Exact condition: for names any two of which can take different values where they meet, every sequence of binds that accepts only these names, its last values settled, replays to the scratch bindings if and only if no two of them resolve to a common parameter |
| `BindLog.CaseReplaysWrong` | ext/ilios/statement.c:162-169 | The instance id and ID: names that differ in case alone replay wrong |
| `Rows.ConvertRow` | ext/ilios/result.c:90-202 | The column loop gives the hash of the row, raises exactly if some cell cannot be decoded, and otherwise maps each of its distinct column names to its decoded value |
| `Rows.RowMeaning` | ext/ilios/result.c:90-202 | The same for the first n columns: exactly those names, each with its own value |
| `Rows.CellReads` | ext/ilios/result.c:104-198 | What a cell of each type reads as: nil if null, the symbol for unsupported types, the number, float, truth value, text, UUID text or instant that it holds, and ExecutionError if it cannot be decoded |
| `Rows.ValueRoundTrip` | ext/ilios/statement.c:59-155 | For every column type and every Ruby value, other objects included: a conversion succeeds exactly if the column type can hold the value, and decoding gives back what the value stands for, in a boolean column true for anything but false and nil, which reads nil |
| `Rows.OwnKindReadsBack` | ext/ilios/result.c:109-198 | A value of the column's own kind reads back as itself: null, integers, booleans, text, doubles, floats that are floats already, and UUIDs in the form the driver writes |
| `Rows.BindsThrough` | ext/ilios/statement.c:231-256 | Binding a hash of all columns that hold their values, of any types, raises nothing and sets every parameter to its own value |
| `Rows.BindRaises` | ext/ilios/statement.c:231-256 | A hash with one value that its column cannot hold raises |
| `Rows.TypedRoundTrip` | ext/ilios/result.c:90-202 | For every list of column types and every row of values: bind accepts a hash of all columns exactly if each can hold its value, and the stored row reads back as exactly those names, each with what its value stands for |
| `Rows.TimestampRoundTrip` | ext/ilios/statement.c:128-137 | Up to 2^51 ms, a Time bound and read back is the same instant or one millisecond nearer zero, in the same second, and the same if it is a whole second |
| `Rows.FloatRoundTrip` | ext/ilios/statement.c:103-117 | A double column gives back every float, infinities and NaN included; a float column refuses exactly finite values beyond FLT_MAX and gives back the others as narrowed |
| `Rows.TimestampReads` | ext/ilios/result.c:177-183 | A timestamp cell reads back as the instant stored, to the millisecond, for every 64-bit value |
| `Paging.OnePageMore` | ext/ilios/result.c:52-80 | The k-th page and the rows through it, extended by one page at the far end |
| `Paging.WalkedToTheEnd` | README.md:107-118 | Pages walked to one without a successor hold all rows of the server, in order |
| `Paging.EndIsNear` | README.md:107-118 | If each page the server sends leaves it less to send, it is walked to the end in at most that many pages |
| `Paging.PagingStateIsOverwritten` | ext/ilios/result.c:59-62 | The paging state that a statement carries from an earlier attempt has no influence on the pages to come |
| `LedgerLocal.BuildIsAtomic` | ext/ilios/statement.c:194-219 | Building a statement either makes exactly one, with configuration and bindings of this moment, or leaves nothing but one freed handle |
| `LedgerLocal.SubmitKeeps` | ext/ilios/session.c:98-99 | A submission makes one statement with the message of this moment and the future of its execution, and touches no other handle |
| `LedgerLocal.ExecuteAsyncKeeps` | ext/ilios/session.c:84-106 | execute_async leaves the new Future owning both, or nothing on an exception |
| `LedgerLocal.ExecuteStartKeeps` | ext/ilios/session.c:116-138 | The same for execute, up to its wait |
| `LedgerLocal.PrepareKeeps` | ext/ilios/session.c:27-36 | A prepare makes one future, for the query it was given, and touches no other handle |
| `LedgerLocal.YieldStatementKeeps` | ext/ilios/future.c:96-109 | The Statement of a success block owns two new handles, and nothing else changes |
| `LedgerLocal.PrepareEndIsYieldAndFree` | ext/ilios/session.c:66-74 | prepare makes its Statement as a success block's is made, and frees the future besides |
| `LedgerLocal.PrepareEndKeeps` | ext/ilios/session.c:58-75 | On either verdict the future is freed, and a Statement made exactly on success |
| `LedgerLocal.SettingKeeps` | ext/ilios/statement.c:264-290 | A setter changes the scratch statement alone, which is never being encoded |
| `LedgerLocal.ExecuteEndKeeps` | ext/ilios/result.c:20-34 | An awaited Result gets the result handle of its future; on refusal it keeps what it had |
| `LedgerLocal.YieldResultKeeps` | ext/ilios/future.c:111-126 | The hand-over: the executed statement belongs to the new Result and no longer to the Future |
| `LedgerLocal.NextPageStartKeeps` | ext/ilios/result.c:52-64 | Asking for the next page sets an idle statement and submits it |
| `LedgerLocal.NextPageEndIsReplacement` | ext/ilios/result.c:73-78 | A page that arrived replaces the old result and its future, which are freed |
| `LedgerLocal.NextPageEndKeeps` | ext/ilios/result.c:67-80 | Both verdicts on a next_page keep ownership: the new future is freed, or the old pair is |
| `LedgerLocal.DestroyedFrees` | ext/ilios/result.c:257-271 | A destroy function frees every handle of its struct, each once |
| `LedgerLocal.DestroyedKeeps` | ext/ilios/statement.c:299-310 | Destroying one object touches no handle of another, in flight or not |
| `LedgerLocal.ResolveKeepsWorld` | ext/ilios/nogvl.c:49-53 | The driver may answer any execution at any time, even one whose future was freed |
| `LedgerInvariant.HandOverKeepsInv` | ext/ilios/future.c:111-126 | The hand-over from Future to Result keeps every handle with exactly one owner |
| `LedgerInvariant.StepKeepsInv` | ext/ilios/ilios.h:46-100 | Every step of every operation, of the driver and of the collector keeps single ownership, conservation and isolation, and leaves all other structs alone |
| `LedgerInvariant.RunKeepsInv` | ext/ilios/ilios.h:46-100 | So does every run |
| `LedgerInvariant.ReachableInv` | ext/ilios/ilios.h:46-100 | They hold in every reachable state |
| `LedgerTheorems.SingleOwnership` | ext/ilios/ilios.h:46-100 | In every reachable state the driver was never misused, each handle ever made is live or was freed exactly once, and each live one is in a field of exactly one struct |
| `LedgerTheorems.AllFreedInAnyOrder` | ext/ilios/future.c:367-381 | From any reachable state with no call running, destroying the objects in any order frees every handle ever made exactly once |
| `LedgerTheorems.RunLeavesAlone` | ext/ilios/session.c:96-105 | An object on which nothing is called stays what it is in any run, and so do its handles, but for the driver's answers |
| `LedgerTheorems.AsyncIsolation` | ext/ilios/session.c:84-106 | Through any interleaving, the statement of an execute_async keeps the configuration and bindings of its submission, and the success block gets the page for exactly that message |
| `LedgerTheorems.SyncIsolation` | ext/ilios/session.c:116-138 | The same for execute while it waits |
| `LedgerTheorems.AwaitedShows` | ext/ilios/result.c:20-34 | A returning execute shows the first page, or raises ExecutionError and has no page, exactly by the verdict |
| `LedgerTheorems.BeginIsPaged` | ext/ilios/result.c:59-64 | Asking for the next page does not change what the Result shows |
| `LedgerTheorems.RefusalIsPaged` | ext/ilios/result.c:67-71 | A refused next_page does not either, although the paging state was written |
| `LedgerTheorems.AnswerIsPaged` | ext/ilios/result.c:73-80 | An answered one moves it to the page after |
| `LedgerTheorems.PagesInOrder` | ext/ilios/result.c:42-81 | In any run, with any refusals and anything happening elsewhere, a Result that turned k times shows the k-th page after the one it started from |
| `LedgerTheorems.AsyncPages` | ext/ilios/session.c:84-106 | From submission to paging: after an execute_async, anything, its success block, and anything again, a Result that turned k times shows the k-th page of the message of the moment of submission |
| `LedgerTheorems.SyncPages` | ext/ilios/session.c:116-138 | The same from an execute that returned |
| `LedgerTheorems.DrainedAtTheEnd` | README.md:107-118 | When it shows a page without a successor, the pages shown are all rows, each once and in order, whatever the server would do on paging states it never sent |
| `LedgerReplay.YieldedMirrors` | ext/ilios/future.c:96-109 | A Statement made for a success block starts with nothing bound and its scratch statement configured as it is |
| `LedgerReplay.PreparedMirrors` | ext/ilios/session.c:66-74 | So does one made by prepare |
| `LedgerReplay.RunMirrors` | ext/ilios/statement.c:231-290 | Any run, with anything else in between, leaves of a Statement exactly what its own binds, raised or not, make of it in hash and scratch statement, and the scratch statement configured as the struct is; what that configuration is, ExecutionsSendTheConfiguration says |
| `LedgerReplay.ExecutionsSendTheScratch` | ext/ilios/statement.c:194-219 | Exact: after any run over names that do not alias, the next execution raises nothing and sends exactly what the scratch statement holds if and only if the last values accepted are settled |
| `LedgerReplay.ExecutionsRaiseIff` | ext/ilios/statement.c:194-219 | After any run, for any names: the next execution raises if and only if what was kept of some last accepted value is not accepted again, and never if they are settled |
| `LedgerReplay.ExecutionsRaiseUntilBoundAgain` | ext/ilios/statement.c:128-219 | After an accepted numeric to_time every execution raises, through anything that happens, until a bind accepts something under that name again |
| `LedgerReplay.BindReports` | ext/ilios/statement.c:231-256 | bind on a Statement returns without an exception exactly if no entry of its hash raises, and otherwise raises that of the first that does |
| `LedgerReplay.ExecutionsSendTheConfiguration` | ext/ilios/statement.c:196-201 | From its making on, after any run, the next execution of a Statement sends the page size of its last page_size=, or 10000, says it is idempotent or not by its last idempotent=, for which only nil and false are no, or says nothing if there was none, and asks for the first page |
| `LedgerReplay.PreparedAsAsked` | ext/ilios/session.c:27-36 | Whatever happens between a prepare_async and its success block, the block gets a Statement of the query given, with nothing bound and the default configuration |
| `LedgerReplay.PreparedInTheEnd` | ext/ilios/session.c:46-75 | So does a prepare return, whatever happens during its wait, or with no Statement if the server refused |
| `LedgerProgress.EveryPageIsReached` | README.md:88-118 | From every reachable state, for any query, setters, hash whose kept values are accepted again, and k: a run prepares a Statement, sets and binds it, executes it and calls next_page, until a Result shows the k-th page of the message those calls say; prepare and execute each as the waiting call or as the _async one with its block |
| `LedgerProgress.EitherAnswerIsPossible` | ext/ilios/nogvl.c:20-23 | Whatever waits may be answered or refused next, whatever else is going on |
| `Cassandra.HashCb` | ext/ilios/statement.c:35-172 | One entry is bound and recorded, or raises and changes nothing |
| `Cassandra.HashForeach` | ext/ilios/statement.c:251-255 | The loop over a hash leaves what BindAll says, up to the first entry that raises |
| `Cassandra.KeyedReplay` | ext/ilios/statement.c:180-186 | Running hash_cb over a kept hash without a record is a replay |
| `Cassandra.CassandraStatement.constructor` | ext/ilios/statement.c:27-33 | A new Statement has nothing bound and the default page size, in its fields and in the driver |
| `Cassandra.CassandraStatement.Bind` | ext/ilios/statement.c:231-256 | bind does what Ledger.Bind does, in a fresh hash; the hash there was stays what it was |
| `Cassandra.CassandraStatement.SetPageSize` | ext/ilios/statement.c:264-272 | page_size= sets the field and the scratch statement to the number given and nothing else; a value that is no number or does not fit a C int raises and changes nothing; LedgerReplay.ExecutionsSendTheConfiguration says what executions send then |
| `Cassandra.CassandraStatement.SetIdempotent` | ext/ilios/statement.c:282-290 | idempotent= sets the field and the scratch statement, and nothing else |
| `Cassandra.CassandraStatement.BuildForExecution` | ext/ilios/statement.c:194-219 | The built statement, or the exception with the statement freed |
| `Cassandra.CassandraStatement.Destroy` | ext/ilios/statement.c:299-310 | Both handles are freed |
| `Cassandra.CassandraFuture.SuccessStatement` | ext/ilios/future.c:96-109 | The Statement handed to a success block |
| `Cassandra.CassandraFuture.SuccessResult` | ext/ilios/future.c:111-126 | The Result handed to a success block takes the executed statement, and the Future gives it up |
| `Cassandra.CassandraFuture.Destroy` | ext/ilios/future.c:367-381 | The future, and the executed statement if it was not handed over, are freed |
| `Cassandra.CassandraResult.Await` | ext/ilios/result.c:24-33 | Once the future has resolved, whatever happened during the wait: its result, or ExecutionError |
| `Cassandra.CassandraResult.AwaitAlone` | ext/ilios/result.c:20-34 | The whole function, when nothing but the driver's answer happens during its wait |
| `Cassandra.CassandraResult.AskNextPage` | ext/ilios/result.c:52-64 | Nothing without a next page; otherwise its future, with the paging state set before |
| `Cassandra.CassandraResult.TakeNextPage` | ext/ilios/result.c:67-80 | On refusal only the new future is freed; otherwise result and future are swapped |
| `Cassandra.CassandraResult.NextPage` | ext/ilios/result.c:42-81 | next_page is these two, when nothing but the driver's answer happens during its wait |
| `Cassandra.CassandraResult.Each` | ext/ilios/result.c:209-249 | One hash for each row, in order, the i-th being that of row i; or the exception of the first row that raises, after the hashes of exactly the rows before it |
| `Cassandra.CassandraResult.Destroy` | ext/ilios/result.c:257-271 | Result, future and executed statement are freed |
| `Cassandra.NextPageMeaning` | ext/ilios/result.c:42-81 | nil and no change; or the next page; or ExecutionError and the same page as before |
| `Cassandra.Session.PrepareAsync` | ext/ilios/session.c:27-36 | A new Future owns the prepare future of this query; LedgerReplay.PreparedAsAsked says what its block gets |
| `Cassandra.Session.SendPrepare` | ext/ilios/session.c:55 | prepare up to its wait: one new future |
| `Cassandra.Session.ReceivePrepared` | ext/ilios/session.c:58-74 | The rest, whatever happened during the wait: the future is freed and a Statement made exactly if it succeeded, else ExecutionError |
| `Cassandra.Session.Prepare` | ext/ilios/session.c:46-75 | The two together, when nothing but the driver's answer happens during the wait: a Statement, or ExecutionError with nothing left behind |
| `Cassandra.Session.Submit` | ext/ilios/session.c:98-99 | Builds and submits, or passes the exception on |
| `Cassandra.Session.ExecuteAsync` | ext/ilios/session.c:84-106 | A new Future owns the future and the executed statement |
| `Cassandra.Session.SendExecute` | ext/ilios/session.c:128-134 | execute up to its wait: a Result that owns the future and the executed statement, or the exception of the build |
| `Cassandra.Session.Execute` | ext/ilios/session.c:116-138 | SendExecute and Await, when nothing but the driver's answer happens during the wait: the awaited Result; on refusal the exception, with the handles left to the Result object |
| `Cassandra.TurnAndRead` | README.md:107-118 | One round of that loop: exactly on a page with a successor and an answer it reads one page more, one hash for each of its rows, and otherwise nothing changes in what was read; on the last page that is one hash for every row of the server |
| `Cassandra.Drain` | README.md:107-118 | The each/next_page loop, with any refusals up to a limit, has one hash for each row read so far, in order, and, if it gets to the end, for every row, and no more; it stops short only for a row that raises or too many refusals |
| `FutureLocal.NextKeeps` | ext/ilios/future.c:143-355 | Each atomic update of a registration, an await or a worker keeps the future consistent with whoever holds its mutex, and is fair to all other threads |
| `FutureLocal.TestPendingKeeps` | ext/ilios/future.c:244-246 | A registration that finds the future pending pushes it, unless it is already in somebody's hands |
| `FutureLocal.ResolveKeeps` | ext/ilios/nogvl.c:20-23 | The driver may resolve the future between any two updates |
| `FutureLocal.InterruptKeeps` | ext/ilios/nogvl.c:62-69 | An unblock post is counted apart and disturbs nothing else |
| `FutureInvariant.ApplyKeepsInv` | ext/ilios/future.c:46-355 | Every step of every thread, of the driver and of the unblock function keeps the invariant of futures, call stacks, queues and worker slots |
| `FutureInvariant.RunKeepsInv` | ext/ilios/future.c:46-355 | So does every run |
| `FutureInvariant.ReachableInv` | ext/ilios/future.c:46-355 | It holds in every reachable state |
| `FutureInvariant.RevivedSlots` | ext/ilios/future.c:46-61 | A revival pass leaves five distinct live workers in the slots |
| `FutureTheorems.CallbackUnderMutex` | ext/ilios/future.c:143-174 | While a callback runs, its invoker holds the future's mutex and waits for it |
| `FutureTheorems.AtMostOneCallOfTheRightKind` | ext/ilios/future.c:149-161 | In every interleaving, racing duplicate registrations included: at most one callback call per future, after resolution, of the block for its outcome |
| `FutureTheorems.ExactlyOnceAtQuiescence` | ext/ilios/future.c:143-174 | A resolved future in nobody's hands has had exactly one call if it has a block for its outcome, and none otherwise |
| `FutureTheorems.NoLostWakeup` | ext/ilios/future.c:176-183 | A registered block is queued, claimed by a worker that will post, or posted for; the semaphore is posts minus waits; one thread at most waits and is owed a permit |
| `FutureTheorems.AwaitReturnsAfterTheCallback` | ext/ilios/future.c:336-355 | Whatever blocks there are: if so far no registration took the ready path and no interrupt posted, and nobody awaited before, then at each of the three ways out of an await, the permit, no block and the already-waited test, the due callback is over |
| `FutureTheorems.AwaitWithOneBlock` | ext/ilios/future.c:336-355 | With one block only, registered once, no registration going on and no interrupt, an await about to take its permit finds the due callback over, ready path or not |
| `FutureTheorems.LaterAwaitReturnsAtOnce` | ext/ilios/future.c:342-346 | An await that finds the future marked, by an earlier await or by a worker, releases the mutex and returns, and changes nothing else |
| `FutureTheorems.InterruptIsAPermit` | ext/ilios/nogvl.c:62-69 | A waiting await can be interrupted at any time, and can then return |
| `FutureTheorems.CalledBlockIsTheDueOne` | ext/ilios/future.c:149-161 | A step that calls a block calls the one for the outcome, on the caller's own thread, and only if none was called before, and sets the yielded flag |
| `FutureTheorems.RegistrationRaisesIffItsBlockDid` | ext/ilios/future.c:236-275 | When a block that on_success or on_failure called itself is over, its caller leaves the mutex free, and raises if and only if the block did |
| `FutureTheorems.WorkerGoesOn` | ext/ilios/future.c:143-183 | After a block that returned, a worker marks the future as waited for, releases the mutex, posts once and goes back to its queue |
| `FutureTheorems.WorkerPassesOn` | ext/ilios/future.c:143-183 | So does a worker that finds nothing to call |
| `FutureTheorems.WorkerSkipsTheMark` | ext/ilios/future.c:166-183 | After a block that raised it releases the mutex without the mark |
| `FutureTheorems.OperationStarts` | ext/ilios/future.c:261-355 | Each call of a program starts the C function of its name with its own arguments, in program order, and changes nothing before that |
| `FutureTheorems.OwnMutexRaises` | ext/ilios/future.c:274 | Taking the mutex of a future raises if the same Ruby thread holds it, and waits if another does |
| `FutureHistory.StepIsRecorded` | ext/ilios/future.c:143-355 | What each step of any activation adds to the log of any future: a call of the block field for the outcome, an end, a post, a wait, a push or an overwrite exactly where the code has one, with the semaphore at posts minus waits, and nothing for any other future |
| `FutureHistory.EventsAreRecorded` | ext/ilios/nogvl.c:20-69 | The driver and the unblock function change the outcome or the permits of their future, the log of it, and nothing else |
| `FutureTheorems.QueueDiscipline` | ext/ilios/future.c:63-87 | First in, first out; at most 100; own kind only; pushed equals queued plus claimed plus finished; once per life without racing duplicates |
| `FutureTheorems.PushRevivesAllSlots` | ext/ilios/future.c:78-82 | A completed push leaves all THREAD_MAX slots live |
| `FutureTheorems.WorkerSupply` | ext/ilios/future.c:46-61 | Dead slots never exceed the callbacks that raised since the last pass, so a non-empty queue has a live worker or a pass to come while fewer than THREAD_MAX raised |
| `FutureTheorems.RaisingWorkerStillPosts` | ext/ilios/future.c:176-188 | A worker whose callback raised posts the semaphore before it dies |
| `FutureProgress.ApplyKeepsDiscipline` | ext/ilios/future.c:166-199 | The discipline on callbacks is kept by every step |
| `FutureProgress.StuckExecuteCallbacks` | ext/ilios/future.c:220-249 | In a stuck state no execute callback is left running |
| `FutureProgress.DeadlockFree` | ext/ilios/future.c:46-87 | With everything resolved, a disciplined program that registers at most once for each block field has all its work done or some step enabled, full queues and pushes under a mutex included |
| `FutureTermination.NextWeight` | ext/ilios/future.c:143-355 | Every step on a future makes the remaining work smaller, the callback it may start included |
| `FutureTermination.RunsAreFinite` | ext/ilios/future.c:143-355 | No run has more steps than its start weighs, whatever callbacks do |
| `FutureTermination.MaximalRunsDeliverEverything` | ext/ilios/future.c:143-355 | Every maximal run of such a program ends with all threads done and every due block called exactly once |
| `FutureWitness.AwaitCanReturnBeforeTheCallback` | ext/ilios/future.c:291-298 | For either kind and any two blocks in either order: the ready path of the second registration posts without calling, and await takes that permit and returns with the due callback uncalled |
| `FutureWitness.AwaitCanReturnDuringTheCallback` | ext/ilios/future.c:234-241 | For either kind, a block registered by another thread once await is entered, alone or after one for the other outcome, with any other threads around: await takes its permit and returns while the callback still runs |
| `FutureWitness.RacingRegistrationsBothPass` | ext/ilios/future.c:261-275 | For either kind, either side and any two blocks: two threads both pass the called-twice test, both write and neither raises, and the first block is lost |
| `FutureAwait.AwaitAfterOneRegistration` | ext/ilios/future.c:336-355 | Any program on any number of threads that registers on a future at most once: once the first await, entered when the block is registered, has returned, by whichever way, the callback is over, in every continuation without interrupts |
| `FutureAwait.AwaitOrderedIffOneBlockBefore` | ext/ilios/future.c:336-355 | Exact condition, for either kind, one thread that registers some blocks and then awaits and any others that register blocks, one for each outcome at most: the await always returns after the callback if and only if no other thread registers any and the awaiting one at most one |
| `FutureRegistrations.ApplyToCome` | ext/ilios/future.c:220-306 | No step of the system adds a registration to those the program may still make, and a write uses one up |
| `FutureRegistrations.NoDuplicates` | ext/ilios/future.c:261-275 | A program whose code registers at most once for each block field of a future never has one overwritten, in any interleaving |
| `FutureRegistrations.RunKeepsSealed` | ext/ilios/future.c:267-274 | A filled block field with nobody between the test and the write keeps its block in every run |
| `FutureRegistrations.LaterRegistrationRaises` | ext/ilios/future.c:267-269 | And in every run every later registration for it raises and does nothing else |
| `FutureRegistrations.OverwrittenIffPastTest` | ext/ilios/future.c:261-275 | Exact condition, while the mutex is free: a filled block field can still be overwritten if and only if some thread stands between the test and its write |
| `FutureRegistrations.OverwriteDuplicates` | ext/ilios/future.c:232 | Such a write replaces the block, and the log counts the future as duplicated |
| `FutureWitness.CrossedCallbacksDeadlock` | ext/ilios/future.c:336-355 | Witness: two callbacks that await each other's future deadlock, so the discipline is needed |
| `FutureStranded.RaisingCallbacksStrandTheQueue` | ext/ilios/future.c:176-199 | For either pool, either outcome and any number of futures from six to a full queue: a disciplined program with everything resolved comes to a stuck state with futures still queued, after exactly five raising callbacks, so the bound of DeadlockFree is sharp |
| `FutureObjects.RegisteredIsTheSteps` | ext/ilios/future.c:220-249 | A registration section that nobody interrupts is exactly the steps of the transition system |
| `FutureObjects.AwaitEnteredIsTheSteps` | ext/ilios/future.c:342-348 | So is the locked part of await |
| `FutureObjects.CassandraFuture.constructor` | ext/ilios/future.c:201-218 | A new future has no blocks, no permit and no flags set |
| `FutureObjects.CassandraFuture.OnSuccessSynchronize` | ext/ilios/future.c:220-249 | With the mutex held: leaves the future as those steps do, and says whether to call or to push |
| `FutureObjects.CassandraFuture.OnFailureSynchronize` | ext/ilios/future.c:277-306 | The mirror image |
| `FutureObjects.CassandraFuture.YielderSynchronize` | ext/ilios/future.c:143-162 | The worker's section up to its callback: the one block to call, if any, or else the mark that it was waited for |
| `FutureObjects.CassandraFuture.YielderMark` | ext/ilios/future.c:162 | The same mark once a callback has returned, as the step of the transition system leaves it |
| `FutureObjects.CassandraFuture.AwaitEnter` | ext/ilios/future.c:342-348 | The locked part of await: true for the first await only, with the future left as the steps do |
| `FutureObjects.ThreadPool.constructor` | ext/ilios/future.c:33-44 | An empty queue and five empty slots |
| `FutureObjects.ThreadPool.Push` | ext/ilios/future.c:80 | The queue grows at its end |
| `FutureObjects.ThreadPool.PushAndPrepare` | ext/ilios/future.c:78-82 | The push with its revival pass, as the two steps of the transition system leave the pool and the threads |
| `FutureObjects.ThreadPool.Pop` | ext/ilios/future.c:84-87 | The queue gives up its head |
| `FutureObjects.ThreadPool.PrepareThread` | ext/ilios/future.c:46-61 | The for loop over the slots leaves what a whole revival pass of the transition system leaves |

## Left out

- cluster.c: setters over driver options, and a connect call that is network I/O.
- ilios.c: the allocator hooks, whose byte accounting is not exact, and module set-up.
- Mark, compact, memsize and write barriers of all types: listings of fields for a collector that is not part of this model. An object is destroyed at any time when no call runs on it.
- The driver, libuv and the Ruby VM: environment, as said above. Pages come from a server that is a function of the message; a real server may change between two pages.
- Thread#kill, Thread#raise and Ractors: a blocked semaphore wait may be interrupted in the model, but no thread is torn out of a critical section, and a revival pass is one step.
- A registration without a block, which raises ArgumentError before it touches the future (future.c:270-272): every registration here has one.
- Memory exhaustion in Ruby or driver allocations.
- Futures made during a run stand in the initial state of `FutureMachine`, untouched.
- FutureObjects.CassandraFuture: has the flags and blocks of the struct, while Cassandra.CassandraFuture has its handles; the two halves meet only in the rule that a success block is called once.
- FutureObjects.CassandraFuture.OnSuccessSynchronize: says whether the block must be called or the future pushed, and does neither, since a callback is Ruby code that the transition system runs as an activation of its own.
- FutureObjects.CassandraFuture.OnFailureSynchronize: the same.
- FutureObjects.CassandraFuture.YielderSynchronize: stops at the callback, for the same reason; YielderMark is what comes after it.
- FutureObjects.ThreadPool.Push: is the push alone; PushAndPrepare has the revival pass too.
- Cassandra.Session.Prepare: lets no other thread act while it waits; SendPrepare and ReceivePrepared do, and so does LedgerMachine.
- Cassandra.Session.Execute: lets no other thread act while it waits; SendExecute and Await do, and so does LedgerMachine.
- Cassandra.CassandraResult.AwaitAlone: lets no other thread act while it waits; Await does.
- Cassandra.CassandraResult.NextPage: lets no other thread act while it waits; AskNextPage and TakeNextPage do, and so does LedgerMachine.
- FutureTheorems.AwaitReturnsAfterTheCallback: goes one way; the exact condition for a program is in FutureAwait.AwaitOrderedIffOneBlockBefore.
- FutureAwait.AwaitOrderedIffOneBlockBefore: is about one future and threads that only register on it; the direction for any program is FutureAwait.AwaitAfterOneRegistration.
- Rows.ConvertRow: takes the text of a UUID as a parameter; the rounding of doubles and their narrowing to floats are parameters of the model as well.
- Prepared queries and their parameter types come from the server as a function of the query text.
- Error message texts, log levels and warnings, and UUID parsing, which the driver does.
- extconf.rb, Rakefile, gemspec, container files and benchmarks.
