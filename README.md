# Transaction lifecycle of imun.Dade, in Dafny

imun.Dade is a thin data-access layer over Dapper. The only logic of its own is the transaction
lifecycle, and that is what this project models:

- `UnitOfWork` begins one transaction on the connection it is given. It commits that transaction, or rolls
  it back, inside try/catch/finally blocks. It also disposes of it, guarded by a `_disposed` flag.
- `UnitOfWorkFactory` validates a connection string once. Each `Create` then builds a new connection and a
  new unit of work on it.
- `DadeContext` creates its unit of work lazily, from the factory, on first use. It forwards `Execute`,
  `ExecuteScalar32`, `ExecuteScalar64`, `Commit` and `Rollback` to it.

## Layout

- `ado.dfy`, module `Ado`: the System.Data collaborators that the core drives (`IDbConnection`,
  `IDbTransaction`), written as small recording classes.
  - Each transaction has a state: Active, Committed, RolledBack or Disposed.
  - Each connection has a state: Closed, Open or Disposed.
  - A `Behaviour` value, fixed when the connection is created, decides which driver calls throw.
  - A `Journal`, shared by a connection and its transaction, records every call made on them, in order.
  - The exceptions are the `Error` datatype. A call returns `Outcome` (void) or `Result<T>`.
- `work_model.dfy`, module `WorkModel`: one unit of work on values (`UowView`), with `Commit`, `Rollback`,
  `Dispose` and `Command` as functions, and the lifecycle lemmas.
- `work.dfy`, module `Work`: class `UnitOfWork`. Each method is proved to change the view exactly as the
  matching `WorkModel` function does.
- `factory.dfy`, module `Factory`: `string.IsNullOrWhiteSpace`, the constructor's validation, and class
  `UnitOfWorkFactory`.
- `context_model.dfy`, module `ContextModel`: one context on values (`ContextView`). `Run` folds the
  context's operations over any sequence of requests, and the lemmas about lazy creation are stated on it.
- `context.dfy`, module `Context`: class `DadeContext`. Each method is proved against `ContextModel`.

A few facts about C# and the driver determine the outcomes:

- An exception thrown inside a `catch` block replaces the one being handled.
- `Transaction.Connection` is read again inside `finally`. When `Transaction` is null, that read itself
  throws `NullReferenceException`.
- Some drivers (SqlClient, for one) return null from `IDbTransaction.Connection` once the transaction has
  completed. This is `Behaviour.detaches`.
- The factory never opens the connection. `BeginTransaction` is modelled as opening a closed connection
  itself, which may throw (`Behaviour.openFails`). The success half of the model therefore assumes a driver
  that opens implicitly. System.Data.SQLite, which the console host uses, refuses `BeginTransaction` on a
  closed connection, and so do SqlClient and Microsoft.Data.Sqlite. With those drivers `openFails` is the
  realistic case: every `Create` throws, and every context call tries `Create` again
  (`FailedCreateIsRetried`, `CommitAfterFailedCreate`).

## Model

| member | source | states |
|---|---|---|
| `WorkModel.Begin` | src/imun.Dade.Core/UnitOfWork.cs:17-20 | Construction on a fresh connection fails exactly when opening fails. Otherwise one `BeginTransaction` is the only call made, and the new transaction is held, active and not disposed. |
| `Work.UnitOfWork.New` | src/imun.Dade.Core/UnitOfWork.cs:17-20 | Exactly one `BeginTransaction` is made on the supplied connection. If it throws, construction throws the same error. Otherwise the property holds the new transaction, which was begun on that connection. |
| `Work.UnitOfWork.constructor` | src/imun.Dade.Core/UnitOfWork.cs:19 | Stores the transaction just begun. The result is valid and not disposed. |
| `WorkModel.Commit` | src/imun.Dade.Core/UnitOfWork.cs:23-41 | On every path the reference ends up null and the transaction disposed. Commit returns normally iff the transaction was held and active, the commit succeeded, and the close succeeded or was skipped. If the commit fails, the result is the commit's error, or the rollback's error when the rollback fails too. On a null reference it fails with NullReference and changes nothing. |
| `Work.UnitOfWork.Commit` | src/imun.Dade.Core/UnitOfWork.cs:23-41 | Changes the transaction, the connection, the call record and the reference exactly as `WorkModel.Commit` does, and returns the same outcome. |
| `WorkModel.CommitSucceeds` | src/imun.Dade.Core/UnitOfWork.cs:25-39 | On the success path the calls are, in order: commit, close, dispose transaction, dispose connection. Afterwards the reference is null. |
| `WorkModel.CommitFailureRollsBack` | src/imun.Dade.Core/UnitOfWork.cs:30-34 | A failed commit is followed by a rollback of the same transaction and then the clean-up. The commit's error is rethrown, unless the rollback fails, in which case the rollback's error is thrown. |
| `WorkModel.CloseFailureAfterCommit` | src/imun.Dade.Core/UnitOfWork.cs:26-34 | If Close throws after a successful commit, the catch block rolls back a committed transaction. That rollback throws InvalidOperation, and the caller sees InvalidOperation. |
| `WorkModel.Rollback` | src/imun.Dade.Core/UnitOfWork.cs:43-60 | Same clean-up as Commit. It returns normally iff the rollback succeeded and the close succeeded or was skipped. A failing rollback is rethrown unchanged as RollbackFailed, and a failing Close after a successful rollback as CloseFailed. |
| `Work.UnitOfWork.Rollback` | src/imun.Dade.Core/UnitOfWork.cs:43-60 | Changes the state exactly as `WorkModel.Rollback` does and returns the same outcome. |
| `WorkModel.RollbackCloseFailurePropagates` | src/imun.Dade.Core/UnitOfWork.cs:45-59 | A Close that throws after a successful rollback is rethrown as CloseFailed. The calls are rollback, close, dispose transaction, dispose connection: no second rollback or other remediation. |
| `WorkModel.RollbackSucceeds` | src/imun.Dade.Core/UnitOfWork.cs:45-59 | The calls are, in order: rollback, close, dispose transaction, dispose connection. Afterwards the reference is null. |
| `WorkModel.RollbackFailurePropagates` | src/imun.Dade.Core/UnitOfWork.cs:45-59 | A failed rollback is thrown as RollbackFailed after exactly one Rollback call. Nothing else is attempted except the clean-up in `finally`. |
| `WorkModel.CompletedIsUnusable` | src/imun.Dade.Core/UnitOfWork.cs:23-60 | After Commit or Rollback, whatever their outcome, a further Commit, Rollback or command fails with NullReference and changes nothing. |
| `WorkModel.DetachingDriverLeavesConnectionOpen` | src/imun.Dade.Core/UnitOfWork.cs:28-38 | If the driver's transaction forgets its connection on completion, neither Commit nor Rollback closes or disposes the connection. It stays open. |
| `WorkModel.Dispose` | src/imun.Dade.Core/UnitOfWork.cs:73-87 | Always sets the flag, and a call made once the flag is set changes nothing. With `disposing`, it disposes a still-held transaction once and drops it. Otherwise (the finalizer, or no transaction held) it touches nothing but the flag. The connection is never touched. |
| `Work.UnitOfWork.Dispose` | src/imun.Dade.Core/UnitOfWork.cs:62-66 | Changes the state as `WorkModel.Dispose` does with `disposing` true. |
| `Work.UnitOfWork.Finalize` | src/imun.Dade.Core/UnitOfWork.cs:68-71 | Changes the state as `WorkModel.Dispose` does with `disposing` false. |
| `Work.UnitOfWork.DisposeCore` | src/imun.Dade.Core/UnitOfWork.cs:73-87 | Changes the state as `WorkModel.Dispose` does. |
| `WorkModel.DisposeIdempotent` | src/imun.Dade.Core/UnitOfWork.cs:75-86 | A second dispose of either kind leaves the state exactly as the first one left it. |
| `WorkModel.DisposeAfterCompletion` | src/imun.Dade.Core/UnitOfWork.cs:79-84 | Disposing after Commit or Rollback makes no driver call. |
| `WorkModel.WfPreserved` | src/imun.Dade.Core/UnitOfWork.cs:17-87 | As long as the reference is non-null, the transaction is active and the connection open. Every operation preserves this. |
| `WorkModel.Command` | src/imun.Dade.Core/DadeContext.cs:28-36 | A command through a held, active transaction records the caller's sql and param and returns the database's reply unchanged. With no transaction held it fails with NullReference and changes nothing. |
| `Work.UnitOfWork.Execute` | src/imun.Dade.Core/DadeContext.cs:28 | Changes the state and returns as `WorkModel.Command` does for a non-query. |
| `Work.UnitOfWork.ExecuteScalar32` | src/imun.Dade.Core/DadeContext.cs:32 | Changes the state and returns as `WorkModel.Command` does for a 32-bit scalar. |
| `Work.UnitOfWork.ExecuteScalar64` | src/imun.Dade.Core/DadeContext.cs:36 | Changes the state and returns as `WorkModel.Command` does for a 64-bit scalar. |
| `Factory.AllWhiteSpace` | src/imun.Dade.Core/UnitOfWorkFactory.cs:15 | True iff every character is white space in the sense of Char.IsWhiteSpace. |
| `Factory.IsNullOrWhiteSpace` | src/imun.Dade.Core/UnitOfWorkFactory.cs:15 | True iff the string is null or every one of its characters is white space. |
| `Factory.Validate` | src/imun.Dade.Core/UnitOfWorkFactory.cs:14-18 | Refuses a null, empty or all-white-space string with ArgumentNull. Otherwise returns the string unchanged, and that string has a character that is not white space. |
| `Factory.UnitOfWorkFactory.New` | src/imun.Dade.Core/UnitOfWorkFactory.cs:14-19 | Construction fails, with ArgumentNull, exactly when validation fails. Otherwise the new factory stores the string as given and has made no Create call. |
| `Factory.UnitOfWorkFactory.constructor` | src/imun.Dade.Core/UnitOfWorkFactory.cs:18 | Stores the validated string. The field is a constant, so nothing can change it afterwards. |
| `Factory.UnitOfWorkFactory.CreateConnection` | src/imun.Dade.Core/UnitOfWorkFactory.cs:25-28 | Returns a newly allocated connection carrying the stored string. It is closed, and no call has been made on it. |
| `Factory.UnitOfWorkFactory.Create` | src/imun.Dade.Core/UnitOfWorkFactory.cs:21-23 | Counts one Create call. It returns a unit of work whose objects are all new, whose connection carries the stored string, and whose view is `WorkModel.Begin`. When opening fails, it throws Begin's error. |
| `Factory.CreateTwice` | src/imun.Dade.Core/UnitOfWorkFactory.cs:21-27 | Two Create calls return different units of work, with different connections and different transactions, and both carry the factory's string. |
| `ContextModel.Acquire` | src/imun.Dade.Core/DadeContext.cs:20 | A cached unit of work is returned as it is, and no Create is made. Otherwise exactly one Create is made, and it is cached iff it succeeded. |
| `ContextModel.Forward` | src/imun.Dade.Core/DadeContext.cs:27-37 | Rethrows a failed Create. Otherwise it returns what the unit of work's command returns, and makes no Create beyond the one that acquiring the unit of work made. |
| `ContextModel.Execute` | src/imun.Dade.Core/DadeContext.cs:27-29 | A failed Create is rethrown with nothing cached. With a held, active transaction the outcome is the database's: normal return if the command succeeds, its error otherwise; the row count is dropped. No Create beyond acquiring, and a cached unit of work is kept. |
| `ContextModel.ExecuteScalar32` | src/imun.Dade.Core/DadeContext.cs:31-33 | A failed Create is rethrown with nothing cached. With a held, active transaction the 32-bit answer, or its error, is returned unchanged. No Create beyond acquiring, and a cached unit of work is kept. |
| `ContextModel.ExecuteScalar64` | src/imun.Dade.Core/DadeContext.cs:35-37 | The same, for the 64-bit answer. |
| `ContextModel.Commit` | src/imun.Dade.Core/DadeContext.cs:40-50 | Rethrows a failed Create verbatim. Otherwise it returns exactly what the unit of work's Commit returns. Afterwards a cached unit of work holds no transaction. |
| `ContextModel.Rollback` | src/imun.Dade.Core/DadeContext.cs:52-62 | The same, for Rollback. |
| `ContextModel.ApplyCreates` | src/imun.Dade.Core/DadeContext.cs:20 | Any one request makes a Create call iff no unit of work is cached. It never drops a cached one. A missing one gets cached iff opening succeeds. |
| `ContextModel.CachedIsNeverReplaced` | src/imun.Dade.Core/DadeContext.cs:18-20 | Once a unit of work is cached, no sequence of requests makes another Create call or drops it. |
| `ContextModel.CreateAtMostOnce` | src/imun.Dade.Core/DadeContext.cs:20-56 | If no Create fails, any sequence of requests makes at most one Create call, and exactly one for a fresh context with at least one request. |
| `ContextModel.FailedCreateIsRetried` | src/imun.Dade.Core/DadeContext.cs:20 | A Create that throws leaves nothing cached, so the next request makes a second Create call. |
| `ContextModel.CommandsForward` | src/imun.Dade.Core/DadeContext.cs:27-37 | With a held transaction, Execute, ExecuteScalar32 and ExecuteScalar64 make no Create call. They pass the same sql and param to the cached unit of work and return its answer unchanged. Execute drops the row count. |
| `ContextModel.CommitTwiceFails` | src/imun.Dade.Core/DadeContext.cs:40-50 | After a Commit that obtained a unit of work, whatever its outcome, a second Commit or a Rollback reaches the same, completed unit of work and fails with NullReference. |
| `ContextModel.CommitAfterFailedCreate` | src/imun.Dade.Core/DadeContext.cs:20-50 | A Commit whose Create fails throws the open failure and caches nothing. The next Commit creates a new unit of work, and it can succeed. |
| `Context.DadeContext.constructor` | src/imun.Dade.Core/DadeContext.cs:22-25 | Stores the factory. No unit of work exists yet, and no Create call has been made. |
| `Context.DadeContext.GetUnitOfWork` | src/imun.Dade.Core/DadeContext.cs:20 | Returns the cached instance without calling Create. Otherwise it calls Create once and caches the result if Create succeeded. Proved against `ContextModel.Acquire`. |
| `Context.DadeContext.Execute` | src/imun.Dade.Core/DadeContext.cs:27-29 | Proved against `ContextModel.Execute`. It keeps a cached unit of work and calls Create only when none was cached. |
| `Context.DadeContext.ExecuteScalar32` | src/imun.Dade.Core/DadeContext.cs:31-33 | Proved against `ContextModel.ExecuteScalar32`. |
| `Context.DadeContext.ExecuteScalar64` | src/imun.Dade.Core/DadeContext.cs:35-37 | Proved against `ContextModel.ExecuteScalar64`. |
| `Context.DadeContext.Commit` | src/imun.Dade.Core/DadeContext.cs:40-50 | Proved against `ContextModel.Commit`. It keeps a cached unit of work and calls Create only when none was cached. |
| `Context.DadeContext.Rollback` | src/imun.Dade.Core/DadeContext.cs:52-62 | Proved against `ContextModel.Rollback`. |
| `Context.CommitTwice` | src/imun.Dade.Core/DadeContext.cs:40-50 | Two Commits on one context make at most one Create call between them, an already cached unit of work is the one both reach, and the second fails with NullReference. |

## Left out

- DadeSet, in both projects, is not part of this model. Every method is a one-line call into Dapper, with no
  logic of the repository's own.
- The console host (`Program.cs`, `Core/DbContext.cs`) is demonstration code and is not modelled.
- SQL execution, the database and connection pooling are foreign calls.
  - A command's answer is the `reply` parameter.
  - Which driver calls throw is the `Behaviour` given to `Create`, standing in for the `TConnection` type and
    the database behind it.
  - `object param` is an optional list of named arguments.
- The async variants and their scheduling are not modelled.
- GC and finalizer timing are not modelled. This includes `GC.SuppressFinalize` in `Dispose`. Only the
  effect of the `disposing` flag is.
- `Dispose` on a driver object is taken never to throw.
- The UnitOfWork's Execute and scalar methods are missing from UnitOfWork.cs, though DadeContext.cs calls
  them. They are modelled as commands sent through the held transaction, which dereference null when none
  is held.
- ContextModel.CreateAtMostOnce: proved only for runs in which no Create throws. With the `??` assignment, a
  throwing Create leaves the cache empty, and the next access calls Create again (`FailedCreateIsRetried`).
- Two C# constructors that can throw are written as static `New` methods that return a `Result`, each
  backed by a constructor that only stores: the UnitOfWork constructor (through BeginTransaction) and the
  factory constructor (through validation).
- Work.UnitOfWork.Valid: the `Transaction` property has a public setter (UnitOfWork.cs:8, 22), so C# code
  could store any transaction, or null, in it. The model lets it hold only null or the transaction the
  constructor began. No code in the repository assigns it from outside.
- A null argument to `new DadeContext(...)` (DadeContext.cs:22-25) or `new UnitOfWork(...)`
  (UnitOfWork.cs:17-19) is legal C#. It fails with NullReferenceException, on first use or at construction.
  The parameters here have non-null types, which exclude that case. Every call site in the repository passes
  a non-null value.

## Notes on the code

- The factory never opens the connection. It relies on `BeginTransaction` to do so, which depends on the
  driver (see above).
- Use after completion fails with `NullReferenceException`. A second Commit throws it from the `try`, the
  `catch` and the `finally` blocks, and changes nothing (`CompletedIsUnusable`, `CommitTwiceFails`).
