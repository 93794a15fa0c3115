/** The user service (pkg/user/service.go): the two business operations
    over the user repository. */
module UserService {
  import opened Base
  import opened Text
  import opened Errors
  import opened UserRepository
  import opened Telemetry
  import opened UserMessages
  import RepositoryTracing

  /** A repository row as the service returns it: all eleven columns. */
  function ToUser(r: Record): User
  {
    User(r.id, r.status, r.company, r.surname, r.name, r.guest, r.covidPass,
         r.rank, r.contactPhone, r.contactMail, r.checkin)
  }

  /** The rows as users, one for one and in the same order. */
  function Users(rs: seq<Record>): (us: seq<User>)
    ensures |us| == |rs|
    ensures forall k :: 0 <= k < |rs| ==> us[k] == ToUser(rs[k])
  {
    seq(|rs|, k requires 0 <= k < |rs| => ToUser(rs[k]))
  }

  /** No two rows give the same user: the copy loses nothing. */
  lemma ToUserInjective(a: Record, b: Record)
    requires ToUser(a) == ToUser(b)
    ensures a == b
  {
  }

  /** The data already present in the receiver of `FromRepo`. */
  function Prior(pp: Option<SearchUserResponse>): seq<User>
  {
    if pp.Some? then pp.value.data else []
  }

  /** `SearchUserResponse.FromRepo`: append one user per row to the
      receiver's data, allocating an empty response for a nil receiver. */
  method FromRepo(pp: Option<SearchUserResponse>, rs: seq<Record>) returns (r: SearchUserResponse)
    ensures r.status == (if pp.Some? then pp.value.status else None)
    ensures r.data == Prior(pp) + Users(rs)
  {
    r := if pp.Some? then pp.value else SearchUserResponse(None, []);
    var i := 0;
    while i < |rs|
      invariant 0 <= i <= |rs|
      invariant r.status == (if pp.Some? then pp.value.status else None)
      invariant r.data == Prior(pp) + Users(rs[..i])
    {
      assert Users(rs[..i + 1]) == Users(rs[..i]) + [ToUser(rs[i])];
      r := r.(data := r.data + [ToUser(rs[i])]);
      i := i + 1;
    }
    assert rs[..i] == rs;
  }

  // ---------------------------------------------------------------------
  // UpdateUser

  /** The row the service hands to the repository: only the id, the pass
      and the check-in flag are set. */
  function RecordFor(req: UpdateUserRequest): (r: Record)
    requires req.data.Some?
  {
    Record(req.id, "", "", "", "", "", req.data.value.covidPass, "", "", "", req.data.value.checkin)
  }

  /** The result of `UpdateUser`: a nil `Data` is dereferenced and panics;
      otherwise the repository's error is returned unchanged beside a
      response without status, and success reports {true, "OK"}. */
  function UpdateOutcome(rows: map<uint64, Record>, req: UpdateUserRequest, db: Faults): (o: Outcome)
    ensures o.Panicked? <==> req.data.None?
    ensures o.Returned? ==> o.resp.UpdateUserReply?
    ensures o.Returned? ==> o.err == UpdateError(rows, RecordFor(req), db)
    ensures o.Returned? ==> (o.resp.updated.status == Some(OK) <==> o.err.None?)
    ensures o.Returned? && o.err.Some? ==> o.resp.updated.status == None
  {
    if req.data.None? then Panicked
    else
      var err := UpdateError(rows, RecordFor(req), db);
      if err.Some? then Returned(UpdateUserReply(UpdateUserResponse(None)), err)
      else Returned(UpdateUserReply(UpdateUserResponse(Some(OK))), None)
  }

  /** The table after `UpdateUser`. */
  function RowsAfterUpdate(rows: map<uint64, Record>, req: UpdateUserRequest, db: Faults): map<uint64, Record>
  {
    if req.data.None? then rows else UpdatedRows(rows, RecordFor(req), db)
  }

  /** `userService.UpdateUser`. The guard on a negative id can never fire,
      because the id is unsigned: every id, 0 included, reaches the
      repository (which then refuses id 0). */
  method UpdateUser(t: UserTable, traced: bool, sinks: Sinks, req: UpdateUserRequest, db: Faults)
    returns (o: Outcome)
    requires t.Valid()
    modifies t, sinks
    ensures t.Valid()
    ensures o == UpdateOutcome(old(t.rows), req, db)
    ensures t.rows == RowsAfterUpdate(old(t.rows), req, db)
    ensures sinks.events == old(sinks.events) + Span(traced && req.data.Some?, "UpdateUser")
  {
    var resp := UpdateUserResponse(None);
    if req.id < 0 {
      assert false;
    }
    if req.data.None? {
      return Panicked;
    }
    var user := RecordFor(req);
    var err := RepositoryTracing.UpdateUser(t, traced, sinks, user, db);
    if err.Some? {
      return Returned(UpdateUserReply(resp), err);
    }
    resp := resp.(status := Some(OK));
    o := Returned(UpdateUserReply(resp), None);
  }

  /** The service's guard rejects no id: an update of an existing row with
      a non-zero id and no database failure succeeds. (Id 0 passes the guard
      too, and the repository refuses it: `ZeroIdIsServerError`.) */
  lemma EveryIdIsAccepted(rows: map<uint64, Record>, req: UpdateUserRequest)
    requires req.data.Some? && req.id in rows && req.id != 0
    ensures UpdateOutcome(rows, req, NoFaults) == Returned(UpdateUserReply(UpdateUserResponse(Some(OK))), None)
    ensures RowsAfterUpdate(rows, req, NoFaults)[req.id].covidPass == req.data.value.covidPass
    ensures RowsAfterUpdate(rows, req, NoFaults)[req.id].checkin == req.data.value.checkin
  {
  }

  /** A stored row with id 0 cannot be updated: the write-back has no WHERE
      condition, the caller sees 500 and the table is unchanged. */
  lemma ZeroIdIsServerError(rows: map<uint64, Record>, req: UpdateUserRequest)
    requires req.data.Some? && req.id == 0 && 0 in rows
    ensures UpdateOutcome(rows, req, NoFaults) ==
      Returned(UpdateUserReply(UpdateUserResponse(None)), Some(Sentinel(MissingWhereClause)))
    ensures StatusCode(ErrorOf(UpdateOutcome(rows, req, NoFaults))) == StatusInternalServerError
    ensures RowsAfterUpdate(rows, req, NoFaults) == rows
  {
    ZeroIdIsRefused(rows, RecordFor(req), NoFaults);
  }

  /** An update changes exactly the pass and the check-in flag of exactly
      the requested row, or nothing at all. */
  lemma UpdateTouchesOneRow(rows: map<uint64, Record>, req: UpdateUserRequest, db: Faults)
    ensures ErrorOf(UpdateOutcome(rows, req, db)).Some? || req.data.None? ==>
      RowsAfterUpdate(rows, req, db) == rows
    ensures ErrorOf(UpdateOutcome(rows, req, db)).None? && req.data.Some? ==>
      && req.id in rows
      && RowsAfterUpdate(rows, req, db) == rows[req.id := rows[req.id].(covidPass := req.data.value.covidPass,
                                                                       checkin := req.data.value.checkin)]
  {
    if req.data.Some? {
      UpdateChangesOnlyTwoColumns(rows, RecordFor(req), db);
    }
  }

  /** A missing id is the repository's not-found error, which classifies as
      500, not 404. */
  lemma MissingIdIsServerError(rows: map<uint64, Record>, req: UpdateUserRequest)
    requires req.data.Some? && req.id !in rows
    ensures StatusCode(ErrorOf(UpdateOutcome(rows, req, NoFaults))) == StatusInternalServerError
    ensures RowsAfterUpdate(rows, req, NoFaults) == rows
  {
    MissingIdIsInternalError(rows, RecordFor(req));
  }

  // ---------------------------------------------------------------------
  // SearchUser

  /** The compiled search pattern for a surname (it always compiles). */
  function Pattern(surname: string): seq<Tok>
  {
    SurnamePatternCompiles(surname);
    CompileLike(SurnamePattern(surname)).value
  }

  /** The results `SearchUser` may return for a table: nothing for an empty
      surname, the wrapped database error, or status {true, "OK"} with one
      user per matching row, in the order the database returned them. */
  ghost predicate SearchResult(rows: map<uint64, Record>, req: SearchUserRequest, db: Faults, o: Outcome)
  {
    if req.surname == [] then
      o == Returned(SearchUserReply(SearchUserResponse(None, [])), None)
    else if db.find.Some? then
      o == Returned(SearchUserReply(SearchUserResponse(None, [])), Some(Wrapped(Other(db.find.value), db.find.value)))
    else
      && o.Returned? && o.err.None? && o.resp.SearchUserReply?
      && o.resp.found.status == Some(OK)
      && exists records :: Enumerates(rows, Pattern(req.surname), records) && o.resp.found.data == Users(records)
  }

  /** `userService.SearchUser`. */
  method SearchUser(t: UserTable, traced: bool, sinks: Sinks, req: SearchUserRequest, db: Faults)
    returns (o: Outcome)
    requires t.Valid()
    modifies sinks
    ensures SearchResult(t.rows, req, db, o)
    ensures sinks.events == old(sinks.events) + Span(traced && req.surname != [], "FindBySurname")
  {
    var resp := SearchUserResponse(None, []);
    if |req.surname| < 1 {
      return Returned(SearchUserReply(resp), None);
    }
    var users, err := RepositoryTracing.FindBySurname(t, traced, sinks, req.surname, db);
    if err.Some? {
      return Returned(SearchUserReply(resp), err);
    }
    resp := resp.(status := Some(OK));
    var full := FromRepo(Some(resp), users);
    o := Returned(SearchUserReply(full), None);
  }

  /** A search never fails and never reports a status for an empty surname,
      and reports {true, "OK"} exactly when it succeeds otherwise. */
  lemma SearchStatus(rows: map<uint64, Record>, req: SearchUserRequest, db: Faults, o: Outcome)
    requires SearchResult(rows, req, db, o)
    ensures o.Returned? && o.resp.SearchUserReply?
    ensures req.surname == [] ==> o.err.None? && o.resp.found.status.None? && o.resp.found.data == []
    ensures req.surname != [] ==> (o.err.None? <==> o.resp.found.status == Some(OK))
    ensures o.err.Some? ==> o.resp.found.status.None? && o.resp.found.data == []
  {
  }

  /** For a surname without pattern characters a successful search returns
      exactly the rows whose surname contains it, ignoring case, each once. */
  lemma SearchIsContainment(rows: map<uint64, Record>, req: SearchUserRequest, o: Outcome)
    requires SearchResult(rows, req, NoFaults, o)
    requires req.surname != [] && Plain(req.surname)
    ensures forall k :: 0 <= k < |o.resp.found.data| ==>
      var u := o.resp.found.data[k];
      u.id in rows && u == ToUser(rows[u.id]) && ContainsFold(u.surname, req.surname)
    ensures forall id :: id in rows && ContainsFold(rows[id].surname, req.surname) ==>
      ToUser(rows[id]) in o.resp.found.data
    ensures forall i, j :: 0 <= i < j < |o.resp.found.data| ==> o.resp.found.data[i].id != o.resp.found.data[j].id
  {
    var pat := Pattern(req.surname);
    var records: seq<Record> :| Enumerates(rows, pat, records) && o.resp.found.data == Users(records);
    var data := o.resp.found.data;
    forall k | 0 <= k < |data|
      ensures data[k].id in rows && data[k] == ToUser(rows[data[k].id]) && ContainsFold(data[k].surname, req.surname)
    {
      SurnameSearchIsContainment(records[k].surname, req.surname);
    }
    forall id | id in rows && ContainsFold(rows[id].surname, req.surname)
      ensures ToUser(rows[id]) in data
    {
      SurnameSearchIsContainment(rows[id].surname, req.surname);
      var k :| 0 <= k < |records| && records[k] == rows[id];
      assert data[k] == ToUser(rows[id]);
    }
  }
}
