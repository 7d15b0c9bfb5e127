/** UnitOfWork: holds one transaction, begun on the connection it is given, and completes or disposes it.
    Each method is proved to do what the matching function of WorkModel does to the view. */
module Work {
  import opened Ado
  import WorkModel

  class UnitOfWork {
    var transaction: Transaction?        // the Transaction property
    var disposed: bool                   // _disposed
    ghost const begun: Transaction       // the transaction the constructor began
    ghost const connection: Connection   // the connection it was begun on; the class keeps no reference of its own
    ghost const Repr: set<object>

    ghost predicate Valid()
      reads this, begun, connection
    {
      && Repr == {this, begun, connection, connection.journal}
      && begun.origin == connection
      && (transaction == null || transaction == begun)
      && (transaction != null ==> begun.state == Active && connection.state == Open)
    }

    ghost function View(): (w: WorkModel.UowView)
      reads this, begun, connection, connection.journal
      ensures Valid() ==> WorkModel.Wf(w)
    {
      WorkModel.UowView(begun.state, connection.state, connection.journal.calls, connection.behaviour,
                        transaction != null, disposed)
    }

    /** Stores a transaction just begun on an open connection. */
    constructor (t: Transaction)
      requires t.state == Active && t.origin.state == Open
      ensures Valid() && transaction == t && begun == t && connection == t.origin && !disposed
    {
      transaction := t;
      disposed := false;
      begun := t;
      connection := t.origin;
      Repr := {this, t, t.origin, t.origin.journal};
    }

    /** `new UnitOfWork(connection)`: begins exactly one transaction on the connection and holds it; when
        BeginTransaction throws, so does the constructor. */
    static method New(connection: Connection) returns (r: Result<UnitOfWork>)
      modifies connection, connection.journal
      ensures connection.journal.calls == old(connection.journal.calls) + [BeginCall]
      ensures connection.state == BeginStep(old(connection.state), connection.behaviour).0
      ensures r.Failure? <==> BeginStep(old(connection.state), connection.behaviour).1.Fail?
      ensures r.Failure? ==> Fail(r.error) == BeginStep(old(connection.state), connection.behaviour).1
      ensures r.Success? ==> && fresh(r.value) && fresh(r.value.begun) && r.value.Valid()
                             && r.value.connection == connection && r.value.transaction == r.value.begun
                             && !r.value.disposed
    {
      var t := connection.BeginTransaction();
      match t
      case Failure(e) =>
        r := Failure(e);
      case Success(tx) =>
        var u := new UnitOfWork(tx);
        r := Success(u);
    }

    method Commit() returns (r: Outcome)
      requires Valid()
      modifies this, begun, connection, connection.journal
      ensures Valid()
      ensures (View(), r) == WorkModel.Commit(old(View()))
    {
      if transaction == null {
        r := Fail(NullReference);  // Transaction.Commit() on null, and again in catch and finally
        return;
      }
      var t := transaction;
      // try
      r := t.Commit();
      if r.Ok? {
        var c := t.Connection();
        if c != null {
          r := c.Close();
        }
      }
      // catch: roll back and rethrow, unless the rollback itself throws
      if r.Fail? {
        var rolled := t.Rollback();
        if rolled.Fail? {
          r := rolled;
        }
      }
      // finally
      t.Dispose();
      var c := t.Connection();
      if c != null {
        c.Dispose();
      }
      transaction := null;
    }

    method Rollback() returns (r: Outcome)
      requires Valid()
      modifies this, begun, connection, connection.journal
      ensures Valid()
      ensures (View(), r) == WorkModel.Rollback(old(View()))
    {
      if transaction == null {
        r := Fail(NullReference);
        return;
      }
      var t := transaction;
      // try
      r := t.Rollback();
      if r.Ok? {
        var c := t.Connection();
        if c != null {
          r := c.Close();
        }
      }
      // catch: rethrow as it is
      // finally
      t.Dispose();
      var c := t.Connection();
      if c != null {
        c.Dispose();
      }
      transaction := null;
    }

    /** IDisposable.Dispose: dispose(true). */
    method Dispose()
      requires Valid()
      modifies this, begun, connection.journal
      ensures Valid()
      ensures View() == WorkModel.Dispose(old(View()), true)
    {
      DisposeCore(true);
    }

    /** The finalizer: dispose(false). */
    method Finalize()
      requires Valid()
      modifies this, begun, connection.journal
      ensures Valid()
      ensures View() == WorkModel.Dispose(old(View()), false)
    {
      DisposeCore(false);
    }

    /** The private dispose(disposing). */
    method DisposeCore(disposing: bool)
      requires Valid()
      modifies this, begun, connection.journal
      ensures Valid()
      ensures View() == WorkModel.Dispose(old(View()), disposing)
    {
      if !disposed {
        if disposing {
          if transaction != null {
            transaction.Dispose();
            transaction := null;
          }
        }
        disposed := true;
      }
    }

    method Execute(sql: string, param: Option<Args>, reply: Result<int32>) returns (r: Result<int32>)
      requires Valid()
      modifies connection.journal
      ensures Valid()
      ensures (View(), r) == WorkModel.Command(old(View()), NonQuery, sql, param, reply)
    {
      if transaction == null {
        r := Failure(NullReference);
        return;
      }
      r := transaction.Command(NonQuery, sql, param, reply);
    }

    method ExecuteScalar32(sql: string, param: Option<Args>, reply: Result<int32>) returns (r: Result<int32>)
      requires Valid()
      modifies connection.journal
      ensures Valid()
      ensures (View(), r) == WorkModel.Command(old(View()), Scalar32, sql, param, reply)
    {
      if transaction == null {
        r := Failure(NullReference);
        return;
      }
      r := transaction.Command(Scalar32, sql, param, reply);
    }

    method ExecuteScalar64(sql: string, param: Option<Args>, reply: Result<int64>) returns (r: Result<int64>)
      requires Valid()
      modifies connection.journal
      ensures Valid()
      ensures (View(), r) == WorkModel.Command(old(View()), Scalar64, sql, param, reply)
    {
      if transaction == null {
        r := Failure(NullReference);
        return;
      }
      r := transaction.Command(Scalar64, sql, param, reply);
    }
  }
}
