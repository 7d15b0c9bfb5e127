/** What a DadeContext does, on values: the view of its unit of work, if it has one yet, and how many times it
    has called the factory's Create. Each operation takes the behaviour the factory's next connection would
    have; it matters only when the operation has to create the unit of work. */
module ContextModel {
  import opened Ado
  import W = WorkModel

  datatype ContextView = ContextView(uow: Option<W.UowView>, creates: nat)

  /** A context just constructed: no unit of work, no Create. */
  const Initial := ContextView(None, 0)

  /** The UnitOfWork property: the cached unit of work, or one made by Create and cached when Create returns. */
  function Acquire(c: ContextView, b: Behaviour): (r: (ContextView, Result<W.UowView>))
    ensures c.uow.Some? ==> r == (c, Success(c.uow.value))
    ensures c.uow.None? ==> r.0.creates == c.creates + 1 && r.1 == W.Begin(b)
    ensures r.1.Success? <==> r.0.uow.Some?
    ensures r.1.Success? ==> r.0.uow == Some(r.1.value)
  {
    match c.uow
    case Some(w) => (c, Success(w))
    case None =>
      var made := W.Begin(b);
      (ContextView(if made.Success? then Some(made.value) else None, c.creates + 1), made)
  }

  /** A command forwarded to the unit of work, whose answer is returned unchanged. */
  function Forward<T>(c: ContextView, b: Behaviour, kind: CommandKind, sql: string, param: Option<Args>,
                      reply: Result<T>): (r: (ContextView, Result<T>))
    ensures Acquire(c, b).1.Failure? ==> r == (Acquire(c, b).0, Failure(Acquire(c, b).1.error))
    ensures Acquire(c, b).1.Success? ==> r.1 == W.Command(Acquire(c, b).1.value, kind, sql, param, reply).1
    ensures r.0.creates == Acquire(c, b).0.creates
  {
    var (c1, u) := Acquire(c, b);
    match u
    case Failure(e) => (c1, Failure(e))
    case Success(w) =>
      var (w', res) := W.Command(w, kind, sql, param, reply);
      (c1.(uow := Some(w')), res)
  }

  /** Execute: the unit of work's count of affected rows is dropped. */
  function Execute(c: ContextView, b: Behaviour, sql: string, param: Option<Args>, reply: Result<int32>)
    : (r: (ContextView, Outcome))
    ensures Acquire(c, b).1.Failure? ==> r == (Acquire(c, b).0, Fail(Acquire(c, b).1.error))
    ensures Acquire(c, b).1.Success? && Acquire(c, b).1.value.held && Acquire(c, b).1.value.tx == Active ==>
      r.1 == (if reply.Success? then Ok else Fail(reply.error))
    ensures r.0.creates == Acquire(c, b).0.creates && (c.uow.Some? ==> r.0.uow.Some?)
  {
    var (c1, r) := Forward(c, b, NonQuery, sql, param, reply);
    (c1, if r.Success? then Ok else Fail(r.error))
  }

  function ExecuteScalar32(c: ContextView, b: Behaviour, sql: string, param: Option<Args>, reply: Result<int32>)
    : (r: (ContextView, Result<int32>))
    ensures Acquire(c, b).1.Failure? ==> r == (Acquire(c, b).0, Failure(Acquire(c, b).1.error))
    ensures Acquire(c, b).1.Success? && Acquire(c, b).1.value.held && Acquire(c, b).1.value.tx == Active ==>
      r.1 == reply
    ensures r.0.creates == Acquire(c, b).0.creates && (c.uow.Some? ==> r.0.uow.Some?)
  {
    Forward(c, b, Scalar32, sql, param, reply)
  }

  function ExecuteScalar64(c: ContextView, b: Behaviour, sql: string, param: Option<Args>, reply: Result<int64>)
    : (r: (ContextView, Result<int64>))
    ensures Acquire(c, b).1.Failure? ==> r == (Acquire(c, b).0, Failure(Acquire(c, b).1.error))
    ensures Acquire(c, b).1.Success? && Acquire(c, b).1.value.held && Acquire(c, b).1.value.tx == Active ==>
      r.1 == reply
    ensures r.0.creates == Acquire(c, b).0.creates && (c.uow.Some? ==> r.0.uow.Some?)
  {
    Forward(c, b, Scalar64, sql, param, reply)
  }

  /** Commit: forwarded; whatever is thrown, by Create or by the unit of work, is rethrown as it is. */
  function Commit(c: ContextView, b: Behaviour): (r: (ContextView, Outcome))
    ensures r.0.uow.Some? ==> !r.0.uow.value.held
    ensures Acquire(c, b).1.Failure? ==> r == (Acquire(c, b).0, Fail(Acquire(c, b).1.error))
    ensures Acquire(c, b).1.Success? ==> r.1 == W.Commit(Acquire(c, b).1.value).1
  {
    var (c1, u) := Acquire(c, b);
    match u
    case Failure(e) => (c1, Fail(e))
    case Success(w) =>
      var (w', o) := W.Commit(w);
      (c1.(uow := Some(w')), o)
  }

  /** Rollback: forwarded in the same way. */
  function Rollback(c: ContextView, b: Behaviour): (r: (ContextView, Outcome))
    ensures r.0.uow.Some? ==> !r.0.uow.value.held
    ensures Acquire(c, b).1.Failure? ==> r == (Acquire(c, b).0, Fail(Acquire(c, b).1.error))
    ensures Acquire(c, b).1.Success? ==> r.1 == W.Rollback(Acquire(c, b).1.value).1
  {
    var (c1, u) := Acquire(c, b);
    match u
    case Failure(e) => (c1, Fail(e))
    case Success(w) =>
      var (w', o) := W.Rollback(w);
      (c1.(uow := Some(w')), o)
  }

  /** One call of the context's public surface. */
  datatype Request =
    | ExecuteRequest(sql: string, param: Option<Args>, affected: Result<int32>)
    | Scalar32Request(sql: string, param: Option<Args>, reply32: Result<int32>)
    | Scalar64Request(sql: string, param: Option<Args>, reply64: Result<int64>)
    | CommitRequest
    | RollbackRequest

  /** A request, and the behaviour the factory's next connection would have if the request needs one. */
  datatype Step = Step(request: Request, behaviour: Behaviour)

  function Apply(c: ContextView, s: Step): ContextView {
    match s.request
    case ExecuteRequest(sql, param, a) => Execute(c, s.behaviour, sql, param, a).0
    case Scalar32Request(sql, param, a) => ExecuteScalar32(c, s.behaviour, sql, param, a).0
    case Scalar64Request(sql, param, a) => ExecuteScalar64(c, s.behaviour, sql, param, a).0
    case CommitRequest => Commit(c, s.behaviour).0
    case RollbackRequest => Rollback(c, s.behaviour).0
  }

  function Run(c: ContextView, steps: seq<Step>): ContextView
    decreases |steps|
  {
    if steps == [] then c else Run(Apply(c, steps[0]), steps[1..])
  }

  /** A single request calls Create exactly when there is no unit of work yet, and keeps a cached one. */
  lemma ApplyCreates(c: ContextView, s: Step)
    ensures Apply(c, s).creates == c.creates + (if c.uow.None? then 1 else 0)
    ensures c.uow.Some? ==> Apply(c, s).uow.Some?
    ensures c.uow.None? ==> (Apply(c, s).uow.Some? <==> !s.behaviour.openFails)
  {
  }

  /** Once the unit of work exists, no sequence of requests calls Create again or drops it. */
  lemma {:induction false} CachedIsNeverReplaced(c: ContextView, steps: seq<Step>)
    requires c.uow.Some?
    ensures Run(c, steps).uow.Some? && Run(c, steps).creates == c.creates
    decreases |steps|
  {
    if steps != [] {
      ApplyCreates(c, steps[0]);
      CachedIsNeverReplaced(Apply(c, steps[0]), steps[1..]);
    }
  }

  /** When the driver can open its connections, a context calls Create at most once over any sequence of
      requests, and exactly once if there is at least one request and none had been made. */
  lemma {:induction false} CreateAtMostOnce(c: ContextView, steps: seq<Step>)
    requires forall i :: 0 <= i < |steps| ==> !steps[i].behaviour.openFails
    ensures Run(c, steps).creates == c.creates + (if c.uow.None? && steps != [] then 1 else 0)
    ensures steps != [] ==> Run(c, steps).uow.Some?
    decreases |steps|
  {
    if steps != [] {
      ApplyCreates(c, steps[0]);
      var c1 := Apply(c, steps[0]);
      CachedIsNeverReplaced(c1, steps[1..]);
    }
  }

  /** A Create that throws leaves nothing cached, so the next request calls Create again. */
  lemma FailedCreateIsRetried(q1: Request, q2: Request, b1: Behaviour, b2: Behaviour)
    requires b1.openFails
    ensures Run(Initial, [Step(q1, b1), Step(q2, b2)]).creates == 2
    ensures Run(Initial, [Step(q1, b1), Step(q2, b2)]).uow.Some? <==> !b2.openFails
  {
    ApplyCreates(Initial, Step(q1, b1));
    var c1 := Apply(Initial, Step(q1, b1));
    ApplyCreates(c1, Step(q2, b2));
    var steps := [Step(q1, b1), Step(q2, b2)];
    assert steps[1..] == [Step(q2, b2)] && steps[1..][1..] == [];
    assert Run(Initial, steps) == Run(c1, [Step(q2, b2)]) == Apply(c1, Step(q2, b2));
  }

  /** The three command calls reach the cached unit of work with the caller's own sql and param, call no
      Create, and return the database's answer unchanged while the transaction is held. */
  lemma CommandsForward(c: ContextView, b: Behaviour, sql: string, param: Option<Args>,
                        a32: Result<int32>, a64: Result<int64>)
    requires c.uow.Some? && W.Wf(c.uow.value) && c.uow.value.held
    ensures var w := c.uow.value;
      && Execute(c, b, sql, param, a32)
           == (c.(uow := Some(w.(calls := w.calls + [CommandCall(NonQuery, sql, param)]))),
               if a32.Success? then Ok else Fail(a32.error))
      && ExecuteScalar32(c, b, sql, param, a32)
           == (c.(uow := Some(w.(calls := w.calls + [CommandCall(Scalar32, sql, param)]))), a32)
      && ExecuteScalar64(c, b, sql, param, a64)
           == (c.(uow := Some(w.(calls := w.calls + [CommandCall(Scalar64, sql, param)]))), a64)
  {
  }

  /** Commit twice on one context: the second call reaches the same, completed unit of work and fails. */
  lemma CommitTwiceFails(c: ContextView, b1: Behaviour, b2: Behaviour)
    requires c.uow.Some? || !b1.openFails
    ensures var c1 := Commit(c, b1).0;
      && c1.uow.Some?
      && Commit(c1, b2) == (c1, Fail(NullReference))
      && Rollback(c1, b2) == (c1, Fail(NullReference))
  {
  }

  /** Commit on a context whose first Create failed is not a second commit: it creates afresh. */
  lemma CommitAfterFailedCreate(b1: Behaviour, b2: Behaviour)
    requires b1.openFails && !b2.openFails && !b2.commitFails && !b2.closeFails
    ensures Commit(Initial, b1) == (ContextView(None, 1), Fail(OpenFailed))
    ensures Commit(Commit(Initial, b1).0, b2).1 == Ok
  {
  }
}
