# go-bookstore core in Dafny

A model of the core of the go-bookstore service and proofs about it. The core covers:

- **The database runner** (`dbRunner`), which hands a request one execution context. It has three parts:
  - nested `Transact` calls share one physical transaction, kept with a nesting counter;
  - `Conn` pins one connection for a callback;
  - `Query`, `QueryRow`, `Exec` and `Prepare` go to whichever of the transaction, the pinned connection or the pool applies.
- **The row reader.** It is a cursor over query results. It scans each row into one slot per column, offers typed accessors for a slot (string, 64-bit integer, RFC 3339 timestamp), and copies a row into a struct by field name.
- **Nullable strings and server errors.** Nullable strings are the empty string as SQL NULL. Server errors carry a code, a cause and an error type, and the error type maps to an HTTP status.
- **The book and user handlers.** Their request validation comes first: trimmed fields must be non-empty, checked in a fixed order; row offset and limit are bounded. Then they decide around the data layer: the borrow/return transition, and which failure becomes which error code and type.

## Layout

| file | module | models |
|---|---|---|
| wrappers.dfy | `Wrappers` | `Option`, `Result` |
| errors.dfy | `Errors` | Go errors the core sees; util/error.go |
| nullstring.dfy | `NullStrings` | gomodules/database/nullString.go |
| text.dfy | `Text` | `strings.TrimSpace` with `unicode.IsSpace` |
| decimal.dfy | `Decimal` | `strconv.ParseInt(s, 10, 64)` and its inverse `strconv.FormatInt` |
| rfc3339.dfy | `Rfc3339` | timestamps as RFC 3339 text: `time.Parse(time.RFC3339Nano, s)` and the inverse format |
| runner_model.dfy | `RunnerModel` | the runner as functions of its state, over an abstract driver that logs events |
| runner_log.dfy | `RunnerLog` | the driver log: open and released handles, at most one release per handle |
| runner_proofs.dfy | `RunnerProofs` | the invariant every runner call keeps, and the transaction/connection properties |
| runner.dfy | `Runner` | `class DbRunner`: the runner's fields updated in place, each method proved equal to the model |
| rowreader.dfy | `RowReaders` | cells, accessors, `class RowReader`, `class Record` and the struct copy |
| values.dfy | `Values` | the constants of values/const.go |
| book.dfy | `Books` | core/book.go |
| user.dfy | `Users` | core/user.go |

### How the model is built

**The runner.**
- The driver behind `sql.DB`, `sql.Conn` and `sql.Tx` is abstract. It numbers the handles it hands out and logs each begin, commit, rollback, acquire, close and statement.
- Its answers are part of the call being modelled: a failed begin, a commit error, the context's error, a failed acquisition, a close error.
- A callback is data: the actions it performs through the runner (nested `Transact` and `Conn` calls, statements) and what it returns (nil, an error, or a panic). Panics are an outcome that propagates.
- `Runner.DbRunner` holds `tx`, `conn` and `txCount` as fields, and `Transact`, `Conn` and the dispatch methods update or read them in place. Each method is proved to produce exactly the state and outcome of the model functions, so the lemmas about the model apply to the class.

**The handlers.**
- The handlers take the decoded request body (or the decoding error) as input.
- Each data-layer call is a function parameter, so the contracts show both what a handler passes to the data layer and what it makes of the answer.

### Where the code and its stated intent differ

The model follows the code in each of these cases.

- **Dispatch under a pinned connection** (gomodules/database/runner.go:146-147, 162-163, 178-179). With a connection pinned and no transaction, `Query`, `QueryRow` and `Exec` still go to the pool; only `Prepare` and `BeginTx` use the pinned connection. See `RunnerModel.StatementTarget`.
- **`Conn` can lose a callback's error** (gomodules/database/runner.go:129-131). The deferred close replaces a failing callback's error with the close result. When the close succeeds, the error becomes nil. A close error is not reported for a callback that succeeded. See `RunnerProofs.ConnCloseResultWins`.
- **The outer callback carries on after an inner rollback** (gomodules/database/runner.go:69-73, 47-60).
  - Once an inner `Transact` has rolled back, the outer callback keeps running. Its further statements go to the pool outside any transaction.
  - A further nested `Transact` begins and commits a second physical transaction.
  - The outer call then panics if its callback returns nil.
  - See `RunnerProofs.ContinueAfterRollbackScenario`, `RunnerProofs.NestedInnerFailureScenario` and `RunnerProofs.NilAfterRollbackPanics`.
- **A scan error is not sticky** (gomodules/database/rowreader.go:56-66). `ScanNext` after a failed scan asks the cursor again. A successful scan clears `lastError`. See `RowReaders.RowReader.ScanNext`.
- **The book status is compared with the user-role constant** (core/book.go:433). `borrowOrReturnBook` compares the status with `UserRoleUnknown` rather than `BookStatusUnknown`. Both are 0, so the behaviour is the one intended.

## Model

| member | source | states |
|---|---|---|
| Errors.Message | util/error.go:40-42 | a server error's message is exactly its cause |
| Errors.MapErrorTypeToHTTPStatus | util/error.go:45-58 | 400 exactly for BadRequest, 401 exactly for NotAuthenticated, 404 exactly for InvalidAPICall or ResourceNotFound, 500 for Internal and for every other error, nil included |
| Errors.NewError | util/error.go:70-79 | the result is a server error whose message is the given cause |
| Errors.IsError | util/error.go:60-68 | true exactly for a server error; any other error, nil included, gives (false, 0, "", the error) |
| Errors.NewErrorRoundTrip | util/error.go:61-79 | inspecting a freshly built error gives back (true, code, cause, type) |
| Errors.NewErrorIgnoresWrapped | util/error.go:71-78 | the wrapped error never changes the error built; it is only logged |
| NullStrings.NewNullableString | gomodules/database/nullString.go:21-27 | valid exactly for a non-empty string, and then holds it; "" gives the zero (NULL) value |
| NullStrings.GetNullStringValue | gomodules/database/nullString.go:29-35 | NULL reads as "" whatever string is stored; a valid value reads as its string |
| NullStrings.NullStringRoundTrip | gomodules/database/nullString.go:21-35 | reading back a wrapped string gives the string, for every string; the wrapper is valid exactly when the string is non-empty |
| NullStrings.NullStringNormalForm | gomodules/database/nullString.go:21-35 | re-wrapping what is read back is the identity on every value the constructor produces |
| Text.TrimSpace | core/book.go:56 | the result is the middle of the input, everything cut off is white space, the result neither starts nor ends with white space, and it is empty exactly when the input is all white space |
| Text.TrimSpaceIdempotent | core/user.go:45-46 | trimming twice is trimming once |
| Decimal.ParseUintFrom | gomodules/database/rowreader.go:99 | the digit loop with its overflow cutoff accepts exactly all-digit text whose value fits 64 bits unsigned, and returns that value |
| Decimal.ParseInt64 | gomodules/database/rowreader.go:97-103 | accepts exactly an optionally signed decimal numeral whose value is in the signed 64-bit range, and returns its value |
| Decimal.FormatParseRoundTrip | gomodules/database/rowreader.go:97-104 | every signed 64-bit value reads back from its decimal text |
| Decimal.ParseOutOfRange | gomodules/database/rowreader.go:99-102 | a numeral above the 64-bit maximum, or a negative one below the minimum, is rejected |
| Rfc3339.Parse | gomodules/database/rowreader.go:117-120 | every accepted timestamp has each field in range (month, day of that month, hour, minute, second, nanoseconds, zone offset) |
| Rfc3339.ZoneRoundTrip | gomodules/database/rowreader.go:117 | every zone offset reads back from its `Z` or `±hh:mm` text |
| Rfc3339.HeadRoundTrip | gomodules/database/rowreader.go:117 | the date and time of day read back from their fixed-width text |
| Rfc3339.TailRoundTrip | gomodules/database/rowreader.go:117 | the fraction and the zone read back from their text |
| Rfc3339.FormatParseRoundTrip | gomodules/database/rowreader.go:117-122 | every valid timestamp reads back from its RFC 3339 text |
| RowReaders.BytesStringRoundTrip | gomodules/database/rowreader.go:85 | converting bytes to a string and back gives the bytes |
| RowReaders.ReadString | gomodules/database/rowreader.go:80-91 | a string cell as is; bytes as the string of those bytes; NULL raises NullValue; any other kind raises WrongType |
| RowReaders.ReadInt64 | gomodules/database/rowreader.go:93-110 | an int64 cell as is; bytes succeed exactly when they are a decimal numeral in the 64-bit range, with its value; NULL raises NullValue; else WrongType |
| RowReaders.ReadTime | gomodules/database/rowreader.go:112-128 | a time cell as is; bytes succeed exactly when they parse as RFC 3339, with the parsed (valid) time; NULL raises NullValue; else WrongType |
| RowReaders.ReadInt64OfText | gomodules/database/rowreader.go:97-104 | an integer a driver sends as decimal text is read back as itself |
| RowReaders.ReadInt64RejectsNonNumeral | gomodules/database/rowreader.go:99-102 | bytes that are not a numeral raise WrongType |
| RowReaders.ReadTimeOfText | gomodules/database/rowreader.go:117-122 | a timestamp a driver sends as RFC 3339 text is read back as itself |
| RowReaders.Truncate | gomodules/database/rowreader.go:155-160 | storing into a narrower signed field keeps a value in the field's range and leaves in-range values unchanged |
| RowReaders.TruncateCongruent | gomodules/database/rowreader.go:160 | the stored value is congruent to the original modulo the field's width |
| RowReaders.Assign | gomodules/database/rowreader.go:152-163 | a string field takes the string accessor's value, a signed-int field the int accessor's value truncated to its width, any other kind raises Unsupported; the kind is kept and NullValue never arises from a non-null cell |
| RowReaders.Fill | gomodules/database/rowreader.go:142-164 | the copy keeps the set of fields and their kinds, and never raises NullValue |
| RowReaders.FillLeavesUnmatched | gomodules/database/rowreader.go:142-150 | a field that no non-null column names keeps its value |
| RowReaders.FillUnsupported | gomodules/database/rowreader.go:152-163 | a non-null column naming a field of an unsupported kind makes the copy panic |
| RowReaders.FillSets | gomodules/database/rowreader.go:142-160 | without a panic, each field named by a non-null column holds the value that the last such column gives it; repeated names are allowed |
| RowReaders.RepeatedColumnLastWins | gomodules/database/rowreader.go:142-160 | two non-null columns with the same name (two `Id` columns of a join): the field ends with the second one's value |
| RowReaders.BookEntityCreatedAtUnsupported | gomodules/database/rowreader.go:161-162 | a non-null `CreatedAt` (a `time.Time` field of `BookEntity`) raises Unsupported after `BookId` is set |
| RowReaders.BookEntityNullCreatedAt | gomodules/database/rowreader.go:143-145 | a null `CreatedAt` is skipped and the other columns are copied |
| RowReaders.RowReader.GetRowReader | gomodules/database/rowreader.go:28-47 | a failed `Columns()` is returned as the error; otherwise a new reader over the columns with one nil slot per column, `valuePtrs[i]` pointing at slot i, and no error |
| RowReaders.RowReader.constructor | gomodules/database/rowreader.go:34-46 | one nil slot and one pointer per column, `valuePtrs[i]` pointing at slot i |
| RowReaders.RowReader.ScanNext | gomodules/database/rowreader.go:56-66 | an exhausted cursor returns false and leaves the error and slots alone; a scan failure records its error and returns false; a row fills every slot, clears the error and returns true |
| RowReaders.RowReader.ReadByIdxString | gomodules/database/rowreader.go:80-91 | the string accessor on the indexed slot; an index outside the row panics |
| RowReaders.RowReader.ReadByIdxInt64 | gomodules/database/rowreader.go:93-110 | the int64 accessor on the indexed slot; an index outside the row panics |
| RowReaders.RowReader.ReadByIdxTime | gomodules/database/rowreader.go:112-128 | the time accessor on the indexed slot; an index outside the row panics |
| RowReaders.RowReader.ReadAllToStruct | gomodules/database/rowreader.go:130-165 | the target's kind is never changed; a non-pointer or a pointer to a non-struct is left alone without a panic; otherwise the fields and the panic are those of `Fill` over the current row |
| RunnerModel.StatementTarget | gomodules/database/runner.go:139-185 | `Query`, `QueryRow` and `Exec` go to the active transaction exactly when there is one, and never to a pinned connection |
| RunnerModel.PrepareTarget | gomodules/database/runner.go:187-200 | `Prepare` goes to the active transaction, else the pinned connection, else the pool |
| RunnerModel.CommitResult | gomodules/database/runner.go:90-97 | the final commit fails exactly when the driver's commit fails; its error is the commit error, except that a commit on a finished transaction reports the context's cancellation or deadline when there is one |
| RunnerModel.AcquireConn | gomodules/database/runner.go:118-124 | acquisition leaves a pinned connection exactly when it reports no error; it is retried once exactly when the first attempt reports a bad connection, and the error returned is the retry's in that case and the first attempt's otherwise; the log gains the first attempt's event and, on a retry, the retry's; the transaction fields are untouched |
| RunnerModel.AcquireOnce | gomodules/database/runner.go:118 | one `db.Conn` call returns the driver's error; without one it pins a fresh handle and logs its acquisition, with one it pins nothing and logs the failure; the transaction fields are untouched |
| RunnerModel.Enter | gomodules/database/runner.go:47-63 | a call without a transaction begins one, on the pinned connection if there is one and else on the pool, with the call's options, and sets the counter to 1; a failed begin is returned and nothing changes; a call inside a transaction only increments the counter |
| RunnerModel.Settle | gomodules/database/runner.go:65-101 | an error or panic rolls back a held transaction once, clears it and is passed on unchanged; a nil return with no transaction left panics with AlreadyFinished; a nil return at counter 1 commits once, clears the transaction and returns the commit result; at any other counter it only decrements |
| RunnerModel.RunTransact | gomodules/database/runner.go:42-106 | a failed begin returns its error and leaves the state untouched; every `Transact` only appends to the log, never reuses a handle number and leaves the pinned connection as it found it |
| RunnerModel.RunConn | gomodules/database/runner.go:108-137 | a failed acquisition returns its error with nothing pinned; every `Conn` only appends to the log, never reuses a handle number and leaves the pinned connection as it found it |
| RunnerModel.RunBody | gomodules/database/runner.go:103 | a callback with no runner calls returns its own result with the state untouched; running a callback only appends to the log and leaves the pinned connection as it found it |
| RunnerLog.LogFacts | gomodules/database/runner.go:59-100 | every handle the driver hands out is open as a transaction, open as a connection, or released, and no handle is two of these |
| RunnerLog.AtMostOneRelease | gomodules/database/runner.go:69-99 | no transaction is committed or rolled back twice (or both), and no connection is closed twice |
| RunnerLog.ReleaseFollowsOpen | gomodules/database/runner.go:69-99 | a commit or rollback names a transaction still open, a close a connection still open |
| RunnerProofs.TransactSound | gomodules/database/runner.go:42-106 | `Transact` keeps the invariant (counter positive exactly while a transaction is held, the log well formed, the fields matching the open handles); it leaves the connection as it was and either keeps the transaction and counter or clears both; on success it keeps them |
| RunnerProofs.ConnSound | gomodules/database/runner.go:108-137 | `Conn` keeps the same invariant and leaves the pinned connection as it found it |
| RunnerProofs.BodySound | gomodules/database/runner.go:103 | a callback's actions keep the invariant |
| RunnerProofs.OutermostTransactReleasesAll | gomodules/database/runner.go:65-101 | the outermost `Transact` returns with no transaction, a zero counter and no open transaction in the log, whatever happens |
| RunnerProofs.NestedSuccessDoesNotCommit | gomodules/database/runner.go:87-100 | a nested `Transact` whose callback succeeds neither commits nor releases the outer transaction and restores the counter |
| RunnerProofs.BeginFailureChangesNothing | gomodules/database/runner.go:47-57 | a failed begin returns its error, changes nothing, and does not run the callback |
| RunnerProofs.JoinIgnoresOptions | gomodules/database/runner.go:61-63 | with a transaction active, `Transact` only increments the counter and its options make no difference |
| RunnerProofs.FailureRollsBack | gomodules/database/runner.go:65-81 | a failing or panicking callback is answered by one rollback of a still-open transaction, no transaction, a zero counter and the callback's own error or panic |
| RunnerProofs.NilAfterRollbackPanics | gomodules/database/runner.go:83-85 | a callback that returns nil after the transaction was rolled back makes `Transact` panic |
| RunnerProofs.OutermostSuccessCommits | gomodules/database/runner.go:87-100 | when the outermost callback succeeds, the transaction it began is committed, `tx` is cleared whatever the commit returns, and the result is the commit result |
| RunnerProofs.ConnDelegates | gomodules/database/runner.go:114-116 | with a transaction or pinned connection in place, `Conn` just runs the callback |
| RunnerProofs.ConnRetriesOnlyBadConn | gomodules/database/runner.go:118-124 | an acquisition error other than a bad connection is returned at once; a bad connection is retried exactly once and the retry's error is returned |
| RunnerProofs.ConnClosesOnce | gomodules/database/runner.go:126-132 | a connection `Conn` acquires is closed exactly once, as its last event, and is unpinned afterwards |
| RunnerProofs.ConnCloseResultWins | gomodules/database/runner.go:126-134 | a failing callback's error is replaced by the close result (nil when the close succeeds); a successful callback stays nil; a panic passes through |
| RunnerProofs.NestedInnerFailureScenario | gomodules/database/runner.go:65-85 | two nested calls whose inner callback fails: one rollback and no commit; the outer call returns the inner error, or panics if its callback returns nil |
| RunnerProofs.ContinueAfterRollbackScenario | gomodules/database/runner.go:47-85 | after an inner rollback, an outer callback's statement goes to the pool and a further nested call begins and commits a second transaction; the outer call then panics |
| Runner.DbRunner.IsInTransaction | gomodules/database/runner.go:202-204 | true exactly when the counter is positive, which under the invariant is exactly when a transaction is held |
| Runner.DbRunner.Query | gomodules/database/runner.go:139-153 | the active transaction exactly when there is one, otherwise the pool, never the pinned connection |
| Runner.DbRunner.QueryRow | gomodules/database/runner.go:155-169 | as `Query` |
| Runner.DbRunner.Exec | gomodules/database/runner.go:171-185 | as `Query` |
| Runner.DbRunner.Prepare | gomodules/database/runner.go:187-200 | the active transaction, else the pinned connection, else the pool |
| Runner.DbRunner.Transact | gomodules/database/runner.go:42-106 | keeps the invariant; new fields, driver log and result are exactly those of the model's `Transact` |
| Runner.DbRunner.TryAcquire | gomodules/database/runner.go:118-120 | one `db.Conn` call: a fresh pinned handle, or no connection and the error logged |
| Runner.DbRunner.AcquireWithRetry | gomodules/database/runner.go:118-124 | the new fields, log and error equal `AcquireConn` of the old snapshot, and the invariant is kept |
| Runner.DbRunner.CloseDeferred | gomodules/database/runner.go:126-132 | the connection is closed and unpinned, with one close logged; a failing callback's error becomes the close result, any other outcome is kept |
| Runner.DbRunner.Conn | gomodules/database/runner.go:108-137 | keeps the invariant; new fields, driver log and result are exactly those of the model's `Conn` |
| Runner.DbRunner.Run | gomodules/database/runner.go:103 | running a callback changes the state and returns exactly as the model's callback does |
| Runner.DbRunner.RunAction | gomodules/database/runner.go:134 | one action of a callback, exactly as the model's |
| Books.CreateBook | core/book.go:32-111 | a decoding error is Validation/BadRequest; name, author and publisher are trimmed and the first empty one, in that order, is Validation/BadRequest with its own cause; otherwise the data layer gets the trimmed fields and the description as a nullable string, and its error becomes Internal |
| Books.CreateBookStatus | core/book.go:44-107 | a failure is 400 exactly when the request was rejected, otherwise 500; a rejected request never consults the data layer |
| Books.CreateBookArguments | core/book.go:56-97 | what reaches the data layer is trimmed and non-empty, and the description survives as its nullable form |
| Books.GetBook | core/book.go:113-153 | an empty id (not trimmed) is Validation/BadRequest; a data error is Internal; no book is EntityNotFound/ResourceNotFound; otherwise the book |
| Books.GetBookMissing | core/book.go:140-149 | a missing book is answered 404 with the EntityNotFound code |
| Books.GetAllBooks | core/book.go:155-232 | a negative offset or a limit outside 0..50 is Validation/BadRequest; 0 means 50; the member listing is used exactly for role 1; the metadata carries the search term, the offset and the effective limit, which is in 1..50; a data error is Internal |
| Books.UpdateBook | core/book.go:234-346 | a decoding error is InvalidJSONBody/BadRequest; id, name, author and publisher are trimmed and the first empty one is Validation/BadRequest; a data error is Internal; the zero time is EntityNotFound; otherwise the new time, never the zero time |
| Books.UpdateBookNotFoundIff | core/book.go:326-335 | for a valid request the answer is 404 exactly when the data layer returns the zero time |
| Books.DeleteBook | core/book.go:348-385 | the trimmed id must be non-empty (Validation); a data error is Internal; no affected row is EntityNotFound; success exactly when rows were affected |
| Books.DeleteBookTrimmed | core/book.go:349 | deleting by a padded id is deleting by the trimmed id |
| Books.Transition | core/book.go:456-476 | an available book becomes borrowed; any other book becomes available, and only for its borrower; anyone else is refused with EntityNotFound ("Book not available"); a borrow records the caller as borrower (NULL for an empty id) and a return clears the borrower to NULL |
| Books.BorrowThenReturn | core/book.go:456-483 | a user who borrows a book can return it, leaving it available with a NULL borrower |
| Books.OnlyBorrowerReturns | core/book.go:468-472 | nobody but the borrower can return a borrowed book, and the refusal is a 404 |
| Books.BorrowOrReturnBook | core/book.go:387-496 | decoding and empty-id errors are Validation/BadRequest; each failed data read is Internal with its cause; status 0 is EntityNotFound; the status change made is exactly the transition for the book's status, the caller and (on a return) the borrower; success exactly when the change is made and accepted |
| Users.Login | core/user.go:23-90 | a decoding error is InvalidJSONBody/BadRequest; an empty trimmed username or password is Validation/BadRequest; a data error or an empty token is InvalidCredentials/NotAuthenticated; success carries a non-empty token |
| Users.LoginStatus | core/user.go:33-79 | a login fails only with 400 or 401, and 401 exactly when the credentials were present |
| Users.LoginTrims | core/user.go:45-46 | padding around the credentials makes no difference |
| Users.AuthorizeUser | core/user.go:92-133 | a blank token is Validation/BadRequest; a data error is Internal; role 0 is EntityNotFound; success exactly for a known role, which is returned |
| Users.AuthorizeUserStatus | core/user.go:96-129 | a failure is 400 exactly for a blank token, 404 exactly for an unknown one, 500 exactly for a failed lookup |

## Left out

- The real driver behind `sql.DB`, `sql.Conn`, `sql.Tx` and `sql.Rows`. It is an abstract event log whose answers are inputs. What statements return is not modelled, only where they are sent; a callback's own result stands for any statement error it passes on.
- Context cancellation. It appears only as the `ctx.Err()` value consulted after a failed commit.
- Rollback errors. The source ignores them, and so does the model.
- Go's `recover` and `panic` machinery. A panic is an outcome value that propagates; panic values are opaque tags.
- Concurrency: the runner is single-owner and has no locking. The goroutines, signal handling, serving and shutdown of `main.go` and `server/http.go` are left out too.
- Reflection in `ReadAllToStruct`.
  - A struct is modelled as a record of its fields by name, with a kind and a value.
  - Promoted fields of embedded structs are not modelled.
  - The panic `reflect` raises when setting an unexported field is not modelled.
  - Go's `int` is taken to be 64 bits wide.
- Partial writes of a failing `rows.Scan`. A failed scan writes no slot.
- `rows.Next` failures. They end the cursor the same way exhaustion does, since the reader never consults `rows.Err()`.
- Rfc3339.Parse: only Go's direct RFC 3339 path is modelled. The general layout parser that Go falls back to is not, and it differs on rare inputs (for example a comma before the fraction).
- Books.UpdateBook: time zones are kept as an offset rather than a location, so the comparison with the zero time compares the offset instead of the location pointer.
- The encoding of strings. Two conventions are used:
  - Handler strings (request fields, path ids, tokens) and the `Text` module's strings are sequences of decoded Unicode code points, and `Text.IsSpace` classifies code points as Go's `unicode.IsSpace` does.
  - The byte cells of `RowReaders` map one byte to one character with the same code.
- Text.TrimSpace: ids or tokens that are not valid UTF-8 are not modelled. Go decodes a stray byte such as 0xA0 or 0x85 as `utf8.RuneError`, which is not a space, and keeps it; the model has no such byte.
- JSON decoding of request bodies. The decoded value or the decoding error is an input.
- `log.Printf` in `newError`, which is a side effect only.
- The response a handler returns next to an error. Where the data layer returns both, the model keeps only the error.
- The SQL of the data layer (data/book.go, data/user.go), pool opening and configuration: server/dbserver/database.go and config/*.go are not part of this model.
- `RowReaders.RowReader.Error` just returns `lastError`, so it carries no contract of its own; `ScanNext` states what `lastError` holds.
