/** The tracing wrapper of the user repository
    (internal/userRepository/tracing.go): each repository call runs inside a
    span named after the call. Whether the wrapper is present is decided at
    start-up from the tracer flag. */
module RepositoryTracing {
  import opened Base
  import opened Errors
  import opened Telemetry
  import opened UserRepository

  method FindBySurname(t: UserTable, traced: bool, sinks: Sinks, surname: string, db: Faults)
    returns (records: seq<Record>, err: Option<Error>)
    requires t.Valid()
    modifies sinks
    ensures err.Some? ==> records == []
    ensures db.find.Some? ==> err == Some(Wrapped(Other(db.find.value), db.find.value))
    ensures err.None? <==> db.find.None?
    ensures CompileLike(SurnamePattern(surname)).Some?
    ensures err.None? ==> Enumerates(t.rows, CompileLike(SurnamePattern(surname)).value, records)
    ensures sinks.events == old(sinks.events) + Span(traced, "FindBySurname")
  {
    if traced {
      sinks.Emit(SpanStarted("FindBySurname"));
    }
    records, err := t.FindBySurname(surname, db);
    if traced {
      sinks.Emit(SpanFinished("FindBySurname"));
    }
  }

  method UpdateUser(t: UserTable, traced: bool, sinks: Sinks, data: Record, db: Faults)
    returns (err: Option<Error>)
    requires t.Valid()
    modifies t, sinks
    ensures t.Valid()
    ensures err == UpdateError(old(t.rows), data, db)
    ensures t.rows == UpdatedRows(old(t.rows), data, db)
    ensures sinks.events == old(sinks.events) + Span(traced, "UpdateUser")
  {
    if traced {
      sinks.Emit(SpanStarted("UpdateUser"));
    }
    err := t.UpdateUser(data, db);
    if traced {
      sinks.Emit(SpanFinished("UpdateUser"));
    }
  }
}
