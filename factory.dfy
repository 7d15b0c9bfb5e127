/** UnitOfWorkFactory: validates its connection string once, then builds a new connection and a new unit of
    work on it for every Create. */
module Factory {
  import opened Ado
  import WorkModel
  import opened Work

  /** Char.IsWhiteSpace: the Unicode space, line and paragraph separators, U+0009 to U+000D and U+0085. */
  predicate IsWhiteSpace(c: char) {
    var n := c as int;
    || (0x09 <= n <= 0x0D) || n == 0x20 || n == 0x85 || n == 0xA0 || n == 0x1680
    || (0x2000 <= n <= 0x200A) || n == 0x2028 || n == 0x2029 || n == 0x202F || n == 0x205F || n == 0x3000
  }

  /** Whether every character of `s` is white space (true of the empty string). */
  function AllWhiteSpace(s: string): (r: bool)
    ensures r <==> forall i :: 0 <= i < |s| ==> IsWhiteSpace(s[i])
  {
    if s == [] then true else IsWhiteSpace(s[0]) && AllWhiteSpace(s[1..])
  }

  /** string.IsNullOrWhiteSpace. */
  function IsNullOrWhiteSpace(s: Option<string>): (r: bool)
    ensures r <==> s.None? || forall i :: 0 <= i < |s.value| ==> IsWhiteSpace(s.value[i])
  {
    s.None? || AllWhiteSpace(s.value)
  }

  /** The constructor's check: a null, empty or all-white-space string is refused with ArgumentNullException;
      any other is kept exactly as given. */
  function Validate(s: Option<string>): (r: Result<string>)
    ensures r.Failure? <==> s.None? || |s.value| == 0 || forall i :: 0 <= i < |s.value| ==> IsWhiteSpace(s.value[i])
    ensures r.Failure? ==> r.error == ArgumentNull
    ensures r.Success? ==> s == Some(r.value) && exists i :: 0 <= i < |r.value| && !IsWhiteSpace(r.value[i])
  {
    if IsNullOrWhiteSpace(s) then Failure(ArgumentNull) else Success(s.value)
  }

  class UnitOfWorkFactory {
    const connectionString: string  // assigned by the constructor only
    ghost var createCount: nat      // how many times Create has been called

    /** The field store, reached only after the check. */
    constructor (connectionString: string)
      requires Validate(Some(connectionString)).Success?
      ensures this.connectionString == connectionString && createCount == 0
    {
      this.connectionString := connectionString;
      createCount := 0;
    }

    /** `new UnitOfWorkFactory<TConnection>(connectionString)`: throws for an invalid string. */
    static method New(connectionString: Option<string>) returns (r: Result<UnitOfWorkFactory>)
      ensures r.Failure? <==> Validate(connectionString).Failure?
      ensures r.Failure? ==> r.error == ArgumentNull
      ensures r.Success? ==> fresh(r.value) && Some(r.value.connectionString) == connectionString
                             && r.value.createCount == 0
    {
      var checked := Validate(connectionString);
      match checked
      case Failure(e) =>
        r := Failure(e);
      case Success(s) =>
        var f := new UnitOfWorkFactory(s);
        r := Success(f);
    }

    /** A new connection of the driver's type carrying the stored string; it is not opened here. */
    method CreateConnection(behaviour: Behaviour) returns (c: Connection)
      ensures fresh(c) && fresh(c.journal)
      ensures c.connectionString == connectionString && c.behaviour == behaviour
      ensures c.state == Closed && c.journal.calls == []
    {
      c := new Connection(connectionString, behaviour);
    }

    /** A new unit of work on a new connection. `behaviour` is how the new connection's driver will answer. */
    method Create(behaviour: Behaviour) returns (r: Result<UnitOfWork>)
      modifies this
      ensures createCount == old(createCount) + 1
      ensures r.Failure? ==> WorkModel.Begin(behaviour) == Failure(r.error)
      ensures r.Success? ==> && fresh(r.value.Repr) && r.value.Valid()
                             && WorkModel.Begin(behaviour) == Success(r.value.View())
                             && r.value.connection.connectionString == connectionString
    {
      createCount := createCount + 1;
      var c := CreateConnection(behaviour);
      r := UnitOfWork.New(c);
      if r.Success? {
        assert r.value.View() == WorkModel.UowView(Active, Open, [BeginCall], behaviour, true, false);
      }
    }
  }

  /** Two Create calls share nothing: each unit of work has its own connection and transaction. */
  method CreateTwice(f: UnitOfWorkFactory, b1: Behaviour, b2: Behaviour)
    returns (u1: Result<UnitOfWork>, u2: Result<UnitOfWork>)
    modifies f
    ensures f.createCount == old(f.createCount) + 2
    ensures u1.Success? && u2.Success? ==>
      && u1.value != u2.value && u1.value.connection != u2.value.connection && u1.value.begun != u2.value.begun
      && u1.value.connection.connectionString == u2.value.connection.connectionString == f.connectionString
  {
    u1 := f.Create(b1);
    u2 := f.Create(b2);
  }
}
