/** What a UnitOfWork does, on values: the state of its one transaction and one connection, the calls made on
    them so far, whether the `Transaction` property still holds the transaction, and the `_disposed` flag.
    The class in module Work is proved to follow these functions step by step. */
module WorkModel {
  import opened Ado

  datatype UowView = UowView(
    tx: TxState,          // state of the transaction the constructor began
    conn: ConnState,      // state of the connection it was begun on
    calls: seq<Call>,     // every call made on the two, in order
    behaviour: Behaviour, // how the driver answers
    held: bool,           // Transaction != null
    disposed: bool)       // _disposed

  /** While the property holds the transaction, the transaction is active on an open connection. */
  predicate Wf(w: UowView) {
    w.held ==> w.tx == Active && w.conn == Open
  }

  /** Whether `Transaction.Connection` reads non-null. */
  predicate Linked(w: UowView) {
    Attached(w.tx, w.behaviour)
  }

  // One driver call each, as it shows in the view.

  function TxCommit(w: UowView): (UowView, Outcome) {
    var (s, o) := CommitStep(w.tx, w.behaviour);
    (w.(tx := s, calls := w.calls + [CommitCall]), o)
  }

  function TxRollback(w: UowView): (UowView, Outcome) {
    var (s, o) := RollbackStep(w.tx, w.behaviour);
    (w.(tx := s, calls := w.calls + [RollbackCall]), o)
  }

  function ConnClose(w: UowView): (UowView, Outcome) {
    var (s, o) := CloseStep(w.conn, w.behaviour);
    (w.(conn := s, calls := w.calls + [CloseCall]), o)
  }

  function TxDispose(w: UowView): UowView {
    w.(tx := TxState.Disposed, calls := w.calls + [DisposeTransactionCall])
  }

  function ConnDispose(w: UowView): UowView {
    w.(conn := ConnState.Disposed, calls := w.calls + [DisposeConnectionCall])
  }

  /** The constructor on a fresh, closed connection: BeginTransaction, which opens the connection. */
  function Begin(b: Behaviour): (r: Result<UowView>)
    ensures r.Failure? <==> b.openFails
    ensures r.Failure? ==> r.error == OpenFailed
    ensures r.Success? ==> Wf(r.value) && r.value.held && !r.value.disposed
    ensures r.Success? ==> r.value.calls == [BeginCall] && r.value.behaviour == b
  {
    var (s, o) := BeginStep(Closed, b);
    if o.Fail? then Failure(o.error)
    else Success(UowView(Active, s, [BeginCall], b, true, false))
  }

  /** Commit: commit, close the connection if there is one; on failure roll back and rethrow;
      finally dispose the transaction, dispose the connection if there is one, and drop the reference. */
  function Commit(w: UowView): (r: (UowView, Outcome))
    ensures !r.0.held
    ensures r.0.behaviour == w.behaviour && r.0.disposed == w.disposed
    ensures w.calls <= r.0.calls
    ensures !w.held ==> r == (w, Fail(NullReference))
    ensures w.held ==> r.0.tx == TxState.Disposed && |r.0.calls| > |w.calls| && r.0.calls[|w.calls|] == CommitCall
    ensures r.1 == Ok <==>
      w.held && w.tx == Active && !w.behaviour.commitFails && (w.behaviour.detaches || !w.behaviour.closeFails)
    ensures w.held && w.tx == Active && w.behaviour.commitFails ==>
      r.1 == Fail(if w.behaviour.rollbackFails then RollbackFailed else CommitFailed)
  {
    if !w.held then (w, Fail(NullReference))  // Transaction.Commit() on null
    else
      var (w1, r1) := TxCommit(w);
      var (w2, r2) := if r1.Ok? && Linked(w1) then ConnClose(w1) else (w1, r1);
      var (w3, r3) :=
        if r2.Ok? then (w2, r2)
        else var (w', rb) := TxRollback(w2); (w', if rb.Ok? then r2 else rb);
      var w4 := TxDispose(w3);
      var w5 := if Linked(w4) then ConnDispose(w4) else w4;
      (w5.(held := false), r3)
  }

  /** Rollback: roll back, close the connection if there is one, rethrow any failure unchanged;
      finally the same clean-up as Commit. */
  function Rollback(w: UowView): (r: (UowView, Outcome))
    ensures !r.0.held
    ensures r.0.behaviour == w.behaviour && r.0.disposed == w.disposed
    ensures w.calls <= r.0.calls
    ensures !w.held ==> r == (w, Fail(NullReference))
    ensures w.held ==> r.0.tx == TxState.Disposed && |r.0.calls| > |w.calls| && r.0.calls[|w.calls|] == RollbackCall
    ensures r.1 == Ok <==>
      w.held && w.tx == Active && !w.behaviour.rollbackFails && (w.behaviour.detaches || !w.behaviour.closeFails)
    ensures w.held && w.tx == Active && w.behaviour.rollbackFails ==> r.1 == Fail(RollbackFailed)
    ensures w.held && w.tx == Active && !w.behaviour.rollbackFails && w.behaviour.closeFails && !w.behaviour.detaches
      ==> r.1 == Fail(CloseFailed)
  {
    if !w.held then (w, Fail(NullReference))  // Transaction.Rollback() on null
    else
      var (w1, r1) := TxRollback(w);
      var (w2, r2) := if r1.Ok? && Linked(w1) then ConnClose(w1) else (w1, r1);
      var w3 := TxDispose(w2);
      var w4 := if Linked(w3) then ConnDispose(w3) else w3;
      (w4.(held := false), r2)
  }

  /** dispose(disposing): only the first call acts; with `disposing` it disposes a still-held transaction
      and drops it; the connection is never touched. */
  function Dispose(w: UowView, disposing: bool): (r: UowView)
    ensures r.disposed
    ensures w.disposed ==> r == w
    ensures !disposing || !w.held ==> r == w.(disposed := true)
    ensures disposing && w.held && !w.disposed ==>
      r == w.(tx := TxState.Disposed, calls := w.calls + [DisposeTransactionCall], held := false, disposed := true)
  {
    if w.disposed then w
    else if disposing && w.held then TxDispose(w).(held := false, disposed := true)
    else w.(disposed := true)
  }

  /** Execute and the scalar queries: a command through the held transaction; the database's reply comes back
      as it is. With no transaction held the call dereferences null. */
  function Command<T>(w: UowView, kind: CommandKind, sql: string, param: Option<Args>, reply: Result<T>)
    : (r: (UowView, Result<T>))
    ensures !w.held ==> r == (w, Failure(NullReference))
    ensures w.held ==> r.0 == w.(calls := w.calls + [CommandCall(kind, sql, param)])
    ensures w.held && w.tx == Active ==> r.1 == reply
    ensures Wf(w) ==> Wf(r.0)
  {
    if !w.held then (w, Failure(NullReference))
    else (w.(calls := w.calls + [CommandCall(kind, sql, param)]), CommandStep(w.tx, reply))
  }

  // Properties of the lifecycle.

  /** Every operation keeps the transaction active and the connection open for as long as it is held. */
  lemma WfPreserved(w: UowView, disposing: bool)
    requires Wf(w)
    ensures Wf(Commit(w).0) && Wf(Rollback(w).0) && Wf(Dispose(w, disposing))
  {
  }

  /** The normal commit: commit, close, dispose the transaction, dispose the connection, in that order. */
  lemma CommitSucceeds(w: UowView)
    requires Wf(w) && w.held
    requires !w.behaviour.commitFails && !w.behaviour.closeFails && !w.behaviour.detaches
    ensures Commit(w).1 == Ok
    ensures Commit(w).0 == w.(tx := TxState.Disposed, conn := ConnState.Disposed, held := false,
      calls := w.calls + [CommitCall, CloseCall, DisposeTransactionCall, DisposeConnectionCall])
  {
  }

  /** A failed commit is followed by a rollback of the same transaction, then the failure is rethrown;
      a rollback that fails as well replaces it. */
  lemma CommitFailureRollsBack(w: UowView)
    requires Wf(w) && w.held && w.behaviour.commitFails
    ensures Commit(w).1 == Fail(if w.behaviour.rollbackFails then RollbackFailed else CommitFailed)
    ensures Commit(w).0.calls == w.calls + [CommitCall, RollbackCall, DisposeTransactionCall]
      + (if w.behaviour.detaches then [] else [DisposeConnectionCall])
  {
  }

  /** A Close that throws after a successful commit sends control to the catch block, whose Rollback on the
      committed transaction throws InvalidOperation, which is what the caller sees. */
  lemma CloseFailureAfterCommit(w: UowView)
    requires Wf(w) && w.held
    requires !w.behaviour.commitFails && w.behaviour.closeFails && !w.behaviour.detaches
    ensures Commit(w).1 == Fail(InvalidOperation)
    ensures Commit(w).0.calls == w.calls + [CommitCall, CloseCall, RollbackCall, DisposeTransactionCall, DisposeConnectionCall]
  {
  }

  /** A failed rollback is rethrown as it is, after exactly one Rollback call. */
  lemma RollbackFailurePropagates(w: UowView)
    requires Wf(w) && w.held && w.behaviour.rollbackFails
    ensures Rollback(w).1 == Fail(RollbackFailed)
    ensures Rollback(w).0.calls == w.calls + [RollbackCall, DisposeTransactionCall]
      + (if w.behaviour.detaches then [] else [DisposeConnectionCall])
  {
  }

  /** A Close that throws after a successful rollback is rethrown as it is: there is no catch block that
      acts, so only the clean-up in finally follows. */
  lemma RollbackCloseFailurePropagates(w: UowView)
    requires Wf(w) && w.held
    requires !w.behaviour.rollbackFails && w.behaviour.closeFails && !w.behaviour.detaches
    ensures Rollback(w).1 == Fail(CloseFailed)
    ensures Rollback(w).0.calls == w.calls + [RollbackCall, CloseCall, DisposeTransactionCall, DisposeConnectionCall]
  {
  }

  /** The normal rollback: roll back, close, dispose the transaction, dispose the connection. */
  lemma RollbackSucceeds(w: UowView)
    requires Wf(w) && w.held
    requires !w.behaviour.rollbackFails && !w.behaviour.closeFails && !w.behaviour.detaches
    ensures Rollback(w).1 == Ok
    ensures Rollback(w).0 == w.(tx := TxState.Disposed, conn := ConnState.Disposed, held := false,
      calls := w.calls + [RollbackCall, CloseCall, DisposeTransactionCall, DisposeConnectionCall])
  {
  }

  /** After Commit or Rollback, whatever their outcome, the instance cannot be used again: every further
      operation fails with a null dereference and changes nothing. */
  lemma CompletedIsUnusable(w: UowView, commit: bool, kind: CommandKind, sql: string, param: Option<Args>,
                            reply: Result<int64>)
    ensures var done := if commit then Commit(w).0 else Rollback(w).0;
      && Commit(done) == (done, Fail(NullReference))
      && Rollback(done) == (done, Fail(NullReference))
      && Command(done, kind, sql, param, reply) == (done, Failure(NullReference))
  {
  }

  /** With a driver whose transaction forgets its connection once it is over, neither Commit nor Rollback
      closes or disposes the connection: it is left open. */
  lemma DetachingDriverLeavesConnectionOpen(w: UowView)
    requires Wf(w) && w.held && w.behaviour.detaches
    ensures Commit(w).0.conn == Open && Rollback(w).0.conn == Open
    ensures CloseCall !in Commit(w).0.calls[|w.calls|..] && DisposeConnectionCall !in Commit(w).0.calls[|w.calls|..]
    ensures CloseCall !in Rollback(w).0.calls[|w.calls|..] && DisposeConnectionCall !in Rollback(w).0.calls[|w.calls|..]
  {
  }

  /** Dispose is idempotent: once the flag is set, further calls of either kind change nothing. */
  lemma DisposeIdempotent(w: UowView, first: bool, again: bool)
    ensures Dispose(Dispose(w, first), again) == Dispose(w, first)
  {
  }

  /** Disposing after Commit or Rollback finds no transaction and touches nothing but the flag. */
  lemma DisposeAfterCompletion(w: UowView, commit: bool)
    ensures var done := if commit then Commit(w).0 else Rollback(w).0;
      Dispose(done, true) == done.(disposed := true)
  {
  }
}
