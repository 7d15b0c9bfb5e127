/** DadeContext: a factory fixed at construction and a unit of work made from it on first use, to which
    Execute, the two scalar queries, Commit and Rollback are forwarded. Each method is proved to do what the
    matching function of ContextModel does to the view. */
module Context {
  import opened Ado
  import W = WorkModel
  import CM = ContextModel
  import opened Work
  import opened Factory

  class DadeContext {
    const factory: UnitOfWorkFactory   // _unitOfWorkFactory, readonly
    var unitOfWork: UnitOfWork?        // _unitOfWork, never reset once set
    // How many times this context has called factory.Create. factory.createCount counts the calls of every
    // context sharing the factory; this one counts only this context's, so that View() can carry it.
    ghost var creates: nat
    ghost var Repr: set<object>        // the objects of the unit of work

    ghost predicate Valid()
      reads this, Repr
    {
      && (unitOfWork == null ==> Repr == {})
      && (unitOfWork != null ==> {unitOfWork, unitOfWork.begun, unitOfWork.connection} <= Repr
                                 && Repr == unitOfWork.Repr && unitOfWork.Valid())
      && this !in Repr && factory !in Repr
    }

    ghost function View(): CM.ContextView
      reads this, Repr
      requires Valid()
    {
      CM.ContextView(if unitOfWork == null then None else Some(unitOfWork.View()), creates)
    }

    constructor (factory: UnitOfWorkFactory)
      ensures Valid() && this.factory == factory && unitOfWork == null && View() == CM.Initial
    {
      this.factory := factory;
      unitOfWork := null;
      creates := 0;
      Repr := {};
    }

    /** The private UnitOfWork property: `_unitOfWork ?? (_unitOfWork = _unitOfWorkFactory.Create())`. */
    method GetUnitOfWork(b: Behaviour) returns (r: Result<UnitOfWork>)
      requires Valid()
      modifies this, factory
      ensures Valid() && fresh(Repr - old(Repr))
      ensures View() == CM.Acquire(old(View()), b).0
      ensures r.Success? ==> r.value == unitOfWork && CM.Acquire(old(View()), b).1 == Success(r.value.View())
      ensures r.Failure? ==> CM.Acquire(old(View()), b).1 == Failure(r.error)
      ensures old(unitOfWork) != null ==> r == Success(old(unitOfWork)) && factory.createCount == old(factory.createCount)
      ensures old(unitOfWork) == null ==> factory.createCount == old(factory.createCount) + 1
    {
      if unitOfWork != null {
        r := Success(unitOfWork);
        return;
      }
      creates := creates + 1;
      r := factory.Create(b);
      if r.Success? {
        unitOfWork := r.value;
        Repr := r.value.Repr;
      }
    }

    method Execute(b: Behaviour, sql: string, param: Option<Args>, reply: Result<int32>) returns (r: Outcome)
      requires Valid()
      modifies this, factory, Repr
      ensures Valid() && fresh(Repr - old(Repr))
      ensures (View(), r) == CM.Execute(old(View()), b, sql, param, reply)
      ensures old(unitOfWork) != null ==> unitOfWork == old(unitOfWork)
      ensures factory.createCount == old(factory.createCount) + (if old(unitOfWork) == null then 1 else 0)
    {
      var u := GetUnitOfWork(b);
      match u
      case Failure(e) =>
        r := Fail(e);
      case Success(w) =>
        var rows := w.Execute(sql, param, reply);
        r := if rows.Success? then Ok else Fail(rows.error);
    }

    method ExecuteScalar32(b: Behaviour, sql: string, param: Option<Args>, reply: Result<int32>)
      returns (r: Result<int32>)
      requires Valid()
      modifies this, factory, Repr
      ensures Valid() && fresh(Repr - old(Repr))
      ensures (View(), r) == CM.ExecuteScalar32(old(View()), b, sql, param, reply)
      ensures old(unitOfWork) != null ==> unitOfWork == old(unitOfWork)
      ensures factory.createCount == old(factory.createCount) + (if old(unitOfWork) == null then 1 else 0)
    {
      var u := GetUnitOfWork(b);
      match u
      case Failure(e) =>
        r := Failure(e);
      case Success(w) =>
        r := w.ExecuteScalar32(sql, param, reply);
    }

    method ExecuteScalar64(b: Behaviour, sql: string, param: Option<Args>, reply: Result<int64>)
      returns (r: Result<int64>)
      requires Valid()
      modifies this, factory, Repr
      ensures Valid() && fresh(Repr - old(Repr))
      ensures (View(), r) == CM.ExecuteScalar64(old(View()), b, sql, param, reply)
      ensures old(unitOfWork) != null ==> unitOfWork == old(unitOfWork)
      ensures factory.createCount == old(factory.createCount) + (if old(unitOfWork) == null then 1 else 0)
    {
      var u := GetUnitOfWork(b);
      match u
      case Failure(e) =>
        r := Failure(e);
      case Success(w) =>
        r := w.ExecuteScalar64(sql, param, reply);
    }

    method Commit(b: Behaviour) returns (r: Outcome)
      requires Valid()
      modifies this, factory, Repr
      ensures Valid() && fresh(Repr - old(Repr))
      ensures (View(), r) == CM.Commit(old(View()), b)
      ensures old(unitOfWork) != null ==> unitOfWork == old(unitOfWork)
      ensures factory.createCount == old(factory.createCount) + (if old(unitOfWork) == null then 1 else 0)
    {
      var u := GetUnitOfWork(b);
      match u
      case Failure(e) =>
        r := Fail(e);
      case Success(w) =>
        r := w.Commit();
    }

    method Rollback(b: Behaviour) returns (r: Outcome)
      requires Valid()
      modifies this, factory, Repr
      ensures Valid() && fresh(Repr - old(Repr))
      ensures (View(), r) == CM.Rollback(old(View()), b)
      ensures old(unitOfWork) != null ==> unitOfWork == old(unitOfWork)
      ensures factory.createCount == old(factory.createCount) + (if old(unitOfWork) == null then 1 else 0)
    {
      var u := GetUnitOfWork(b);
      match u
      case Failure(e) =>
        r := Fail(e);
      case Success(w) =>
        r := w.Rollback();
    }
  }

  /** Two Commits on one context reach the same unit of work; the second fails with a null dereference. */
  method CommitTwice(ctx: DadeContext, b1: Behaviour, b2: Behaviour) returns (first: Outcome, second: Outcome)
    requires ctx.Valid() && (ctx.unitOfWork != null || !b1.openFails)
    modifies ctx, ctx.factory, ctx.Repr
    ensures ctx.Valid() && ctx.unitOfWork != null
    ensures second == Fail(NullReference)
    ensures ctx.factory.createCount <= old(ctx.factory.createCount) + 1
    ensures old(ctx.unitOfWork) != null ==> ctx.unitOfWork == old(ctx.unitOfWork)
  {
    first := ctx.Commit(b1);
    CM.CommitTwiceFails(old(ctx.View()), b1, b2);
    second := ctx.Commit(b2);
  }
}
