/** The System.Data collaborators a unit of work drives (IDbConnection and IDbTransaction), modelled as small
    recording doubles. Each has a state, a driver behaviour fixed when the connection is created, and a journal,
    shared by a connection and the transactions begun on it, that records every call made on them in order. */
module Ado {

  newtype int32 = x: int | -0x8000_0000 <= x < 0x8000_0000
  newtype int64 = x: int | -0x8000_0000_0000_0000 <= x < 0x8000_0000_0000_0000

  datatype Option<+T> = None | Some(value: T)

  /** The exceptions that the core raises or lets through. */
  datatype Error =
    | NullReference          // a member reached through a null reference
    | InvalidOperation       // a driver call on a transaction or connection in the wrong state
    | ArgumentNull           // a null, empty or white-space connection string
    | OpenFailed             // the driver could not open the connection
    | CommitFailed
    | RollbackFailed
    | CloseFailed
    | DatabaseError(code: int)  // anything the database reports for a command

  /** Completion of a void call: it returned, or it threw. */
  datatype Outcome = Ok | Fail(error: Error)

  /** Completion of a call with a value. */
  datatype Result<+T> = Success(value: T) | Failure(error: Error)

  /** How the driver and the database behind one connection answer. */
  datatype Behaviour = Behaviour(
    openFails: bool,       // opening the connection throws
    commitFails: bool,     // IDbTransaction.Commit throws
    rollbackFails: bool,   // IDbTransaction.Rollback throws
    closeFails: bool,      // IDbConnection.Close throws
    detaches: bool)        // IDbTransaction.Connection reads null once the transaction is no longer active

  datatype TxState = Active | Committed | RolledBack | Disposed
  datatype ConnState = Closed | Open | Disposed

  datatype CommandKind = NonQuery | Scalar32 | Scalar64

  /** The `param` object of a command: named arguments, or null. */
  type Args = seq<(string, string)>

  /** One call on a connection or a transaction. */
  datatype Call =
    | BeginCall
    | CommitCall
    | RollbackCall
    | CloseCall
    | DisposeTransactionCall
    | DisposeConnectionCall
    | CommandCall(kind: CommandKind, sql: string, param: Option<Args>)

  // The driver's answers, as functions of the state the call finds.

  /** Whether IDbTransaction.Connection is non-null in transaction state `s`. */
  predicate Attached(s: TxState, b: Behaviour) {
    !b.detaches || s == Active
  }

  /** BeginTransaction opens a closed connection implicitly; a disposed one refuses. */
  function BeginStep(s: ConnState, b: Behaviour): (ConnState, Outcome) {
    if s == ConnState.Disposed then (s, Fail(InvalidOperation))
    else if s == Open then (s, Ok)
    else if b.openFails then (s, Fail(OpenFailed))
    else (Open, Ok)
  }

  /** Commit succeeds only on an active transaction; a failed commit leaves it active. */
  function CommitStep(s: TxState, b: Behaviour): (TxState, Outcome) {
    if s != Active then (s, Fail(InvalidOperation))
    else if b.commitFails then (s, Fail(CommitFailed))
    else (Committed, Ok)
  }

  /** Rollback succeeds only on an active transaction; a failed rollback leaves it active. */
  function RollbackStep(s: TxState, b: Behaviour): (TxState, Outcome) {
    if s != Active then (s, Fail(InvalidOperation))
    else if b.rollbackFails then (s, Fail(RollbackFailed))
    else (RolledBack, Ok)
  }

  /** Close leaves a disposed connection disposed and closes any other. */
  function CloseStep(s: ConnState, b: Behaviour): (ConnState, Outcome) {
    if b.closeFails then (s, Fail(CloseFailed))
    else if s == ConnState.Disposed then (s, Ok)
    else (Closed, Ok)
  }

  /** A command runs only inside an active transaction; the database's reply is passed through. */
  function CommandStep<T>(s: TxState, reply: Result<T>): Result<T> {
    if s != Active then Failure(InvalidOperation) else reply
  }

  /** The record of calls made on one connection and its transactions. */
  class Journal {
    var calls: seq<Call>

    constructor ()
      ensures calls == []
    {
      calls := [];
    }

    method Record(c: Call)
      modifies this
      ensures calls == old(calls) + [c]
    {
      calls := calls + [c];
    }
  }

  /** IDbConnection. */
  class Connection {
    const connectionString: string
    const behaviour: Behaviour
    const journal: Journal
    var state: ConnState

    /** `new TConnection { ConnectionString = connectionString }`: a closed connection with nothing done on it. */
    constructor (connectionString: string, behaviour: Behaviour)
      ensures this.connectionString == connectionString && this.behaviour == behaviour
      ensures state == Closed && fresh(journal) && journal.calls == []
    {
      this.connectionString := connectionString;
      this.behaviour := behaviour;
      journal := new Journal();
      state := Closed;
    }

    method BeginTransaction() returns (r: Result<Transaction>)
      modifies this, journal
      ensures journal.calls == old(journal.calls) + [BeginCall]
      ensures state == BeginStep(old(state), behaviour).0
      ensures r.Success? <==> BeginStep(old(state), behaviour).1 == Ok
      ensures r.Failure? ==> Fail(r.error) == BeginStep(old(state), behaviour).1
      ensures r.Success? ==> fresh(r.value) && r.value.state == Active && r.value.origin == this
    {
      journal.Record(BeginCall);
      var (s, o) := BeginStep(state, behaviour);
      state := s;
      if o.Fail? {
        r := Failure(o.error);
      } else {
        var t := new Transaction(this);
        r := Success(t);
      }
    }

    method Close() returns (r: Outcome)
      modifies this, journal
      ensures journal.calls == old(journal.calls) + [CloseCall]
      ensures (state, r) == CloseStep(old(state), behaviour)
    {
      journal.Record(CloseCall);
      var (s, o) := CloseStep(state, behaviour);
      state, r := s, o;
    }

    method Dispose()
      modifies this, journal
      ensures journal.calls == old(journal.calls) + [DisposeConnectionCall]
      ensures state == ConnState.Disposed
    {
      journal.Record(DisposeConnectionCall);
      state := ConnState.Disposed;
    }
  }

  /** IDbTransaction. */
  class Transaction {
    const origin: Connection  // the connection it was begun on
    var state: TxState

    constructor (origin: Connection)
      ensures this.origin == origin && state == Active
    {
      this.origin := origin;
      state := Active;
    }

    /** The Connection property: null once the transaction is over, for a driver that detaches. */
    function Connection(): (c: Connection?)
      reads this
      ensures c == null || c == origin
      ensures c != null <==> Attached(state, origin.behaviour)
    {
      if Attached(state, origin.behaviour) then origin else null
    }

    method Commit() returns (r: Outcome)
      modifies this, origin.journal
      ensures origin.journal.calls == old(origin.journal.calls) + [CommitCall]
      ensures (state, r) == CommitStep(old(state), origin.behaviour)
    {
      origin.journal.Record(CommitCall);
      var (s, o) := CommitStep(state, origin.behaviour);
      state, r := s, o;
    }

    method Rollback() returns (r: Outcome)
      modifies this, origin.journal
      ensures origin.journal.calls == old(origin.journal.calls) + [RollbackCall]
      ensures (state, r) == RollbackStep(old(state), origin.behaviour)
    {
      origin.journal.Record(RollbackCall);
      var (s, o) := RollbackStep(state, origin.behaviour);
      state, r := s, o;
    }

    method Dispose()
      modifies this, origin.journal
      ensures origin.journal.calls == old(origin.journal.calls) + [DisposeTransactionCall]
      ensures state == TxState.Disposed
    {
      origin.journal.Record(DisposeTransactionCall);
      state := TxState.Disposed;
    }

    /** A command sent through this transaction's connection and enlisted in it. */
    method Command<T>(kind: CommandKind, sql: string, param: Option<Args>, reply: Result<T>) returns (r: Result<T>)
      modifies origin.journal
      ensures origin.journal.calls == old(origin.journal.calls) + [CommandCall(kind, sql, param)]
      ensures r == CommandStep(state, reply)
    {
      origin.journal.Record(CommandCall(kind, sql, param));
      r := CommandStep(state, reply);
    }
  }
}
