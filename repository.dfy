/** The user repository over the `users` table (internal/userRepository/db.go
    and model.go). The table is a map from id to row; the database's own
    failures are parameters. The surname search uses a PostgreSQL `ILIKE`
    pattern, modelled after section 9.7.1 of the PostgreSQL manual: `%`
    matches any run of characters, `_` exactly one, and a backslash makes the
    next character literal. */
module UserRepository {
  import opened Base
  import opened Text
  import opened Errors

  /** One row of the `users` table. */
  datatype Record = Record(
    id: uint64,
    status: string,
    company: string,
    surname: string,
    name: string,
    guest: string,
    covidPass: string,
    rank: string,
    contactPhone: string,
    contactMail: string,
    checkin: bool)

  /** What the database does on one call, beyond the table contents: a driver
      or connection failure of the search query, of the row lookup, or of the
      write-back. */
  datatype Faults = Faults(find: Option<string>, lookup: Option<string>, write: Option<string>)

  const NoFaults := Faults(None, None, None)

  // ---------------------------------------------------------------------
  // LIKE patterns

  datatype Tok = AnySeq | AnyChar | Lit(c: char)

  function Prepend(t: seq<Tok>, r: Option<seq<Tok>>): Option<seq<Tok>>
  {
    if r.None? then None else Some(t + r.value)
  }

  /** Parses a LIKE pattern; None when it ends with a lone escape character,
      which the database rejects. */
  function CompileLike(p: string): Option<seq<Tok>>
    decreases |p|
  {
    if p == [] then Some([])
    else if p[0] == '\\' then
      if |p| == 1 then None else Prepend([Lit(p[1])], CompileLike(p[2..]))
    else
      Prepend([if p[0] == '%' then AnySeq else if p[0] == '_' then AnyChar else Lit(p[0])],
              CompileLike(p[1..]))
  }

  /** `s ILIKE pattern`, comparing characters after ASCII lower-casing. */
  predicate Like(s: string, t: seq<Tok>)
    decreases |s| + |t|
  {
    if t == [] then s == []
    else match t[0]
      case AnySeq => Like(s, t[1..]) || (s != [] && Like(s[1..], t))
      case AnyChar => s != [] && Like(s[1..], t[1..])
      case Lit(c) => s != [] && LowerChar(s[0]) == LowerChar(c) && Like(s[1..], t[1..])
  }

  /** The pattern `FindBySurname` sends: the argument, unescaped, between two `%`. */
  function SurnamePattern(surname: string): string
  {
    "%" + surname + "%"
  }

  /** No character of `s` is special in a LIKE pattern. */
  predicate Plain(s: string)
  {
    forall i :: 0 <= i < |s| ==> s[i] != '%' && s[i] != '_' && s[i] != '\\'
  }

  function Lits(s: string): (t: seq<Tok>)
    ensures |t| == |s|
    ensures forall i :: 0 <= i < |s| ==> t[i] == Lit(s[i])
  {
    seq(|s|, i requires 0 <= i < |s| => Lit(s[i]))
  }

  lemma {:induction false} CompilePlain(s: string, rest: string)
    requires Plain(s)
    ensures CompileLike(s + rest) == Prepend(Lits(s), CompileLike(rest))
  {
    if s != [] {
      var p := s + rest;
      assert p[0] == s[0] && p[0] != '\\';
      assert p[1..] == s[1..] + rest;
      assert CompileLike(p) == Prepend([Lit(s[0])], CompileLike(s[1..] + rest));
      CompilePlain(s[1..], rest);
      assert Lits(s) == [Lit(s[0])] + Lits(s[1..]);
      if CompileLike(rest).Some? {
        var v := CompileLike(rest).value;
        assert [Lit(s[0])] + (Lits(s[1..]) + v) == ([Lit(s[0])] + Lits(s[1..])) + v;
      }
    } else {
      assert s + rest == rest;
      if CompileLike(rest).Some? {
        assert Lits(s) + CompileLike(rest).value == CompileLike(rest).value;
      }
    }
  }

  lemma CompileSurnamePattern(s: string)
    requires Plain(s)
    ensures CompileLike(SurnamePattern(s)) == Some([AnySeq] + Lits(s) + [AnySeq])
  {
    assert SurnamePattern(s) == "%" + (s + "%");
    CompileStep(SurnamePattern(s), '%', s + "%");
    CompilePlain(s, "%");
    CompileEmpty();
    CompileStep("%", '%', "");
    assert [AnySeq] + [] == [AnySeq];
    assert [AnySeq] + (Lits(s) + [AnySeq]) == [AnySeq] + Lits(s) + [AnySeq];
  }

  lemma {:induction false} AnySeqMatchesAll(x: string)
    ensures Like(x, [AnySeq])
  {
    if x != [] {
      AnySeqMatchesAll(x[1..]);
    }
  }

  /** Two strings agree after lower-casing exactly when their first
      characters and their tails do. */
  lemma LowerEqCons(a: string, b: string)
    requires |a| == |b| && a != []
    ensures Lower(a) == Lower(b) <==> LowerChar(a[0]) == LowerChar(b[0]) && Lower(a[1..]) == Lower(b[1..])
  {
    if LowerChar(a[0]) == LowerChar(b[0]) && Lower(a[1..]) == Lower(b[1..]) {
      forall i | 0 <= i < |a| ensures Lower(a)[i] == Lower(b)[i] {
        if i > 0 {
          assert Lower(a[1..])[i - 1] == Lower(b[1..])[i - 1];
        }
      }
    }
    if Lower(a) == Lower(b) {
      assert Lower(a)[0] == Lower(b)[0];
      forall i | 0 <= i < |a| - 1 ensures Lower(a[1..])[i] == Lower(b[1..])[i] {
        assert Lower(a)[i + 1] == Lower(b)[i + 1];
      }
    }
  }

  lemma {:induction false} PrefixMatch(x: string, t: string)
    ensures Like(x, Lits(t) + [AnySeq]) <==> |t| <= |x| && Lower(x[..|t|]) == Lower(t)
  {
    var pat := Lits(t) + [AnySeq];
    if t == [] {
      assert pat == [AnySeq];
      AnySeqMatchesAll(x);
    } else {
      assert pat[0] == Lit(t[0]);
      assert pat[1..] == Lits(t[1..]) + [AnySeq];
      if x != [] {
        PrefixMatch(x[1..], t[1..]);
        if |t| <= |x| {
          assert x[1..][..|t| - 1] == x[..|t|][1..];
          LowerEqCons(x[..|t|], t);
        }
      }
    }
  }

  lemma {:induction false} LeadingAnySeq(x: string, rest: seq<Tok>)
    ensures Like(x, [AnySeq] + rest) <==> exists k :: 0 <= k <= |x| && Like(x[k..], rest)
  {
    var pat := [AnySeq] + rest;
    assert pat[1..] == rest;
    if x == [] {
      assert x[0..] == x;
    } else {
      LeadingAnySeq(x[1..], rest);
      if Like(x, pat) {
        if Like(x, rest) {
          assert x[0..] == x;
        } else {
          var k :| 0 <= k <= |x[1..]| && Like(x[1..][k..], rest);
          assert x[1..][k..] == x[k + 1..];
        }
      } else {
        forall k | 0 <= k <= |x|
          ensures !Like(x[k..], rest)
        {
          if k == 0 {
            assert x[0..] == x;
          } else {
            assert x[1..][k - 1..] == x[k..];
          }
        }
      }
    }
  }

  /** For an argument without `%`, `_` or `\`, the search pattern matches a
      surname exactly when the argument occurs in it, ignoring case. */
  lemma SurnameSearchIsContainment(x: string, s: string)
    requires Plain(s)
    ensures CompileLike(SurnamePattern(s)).Some?
    ensures Like(x, CompileLike(SurnamePattern(s)).value) <==> ContainsFold(x, s)
  {
    CompileSurnamePattern(s);
    var rest := Lits(s) + [AnySeq];
    assert [AnySeq] + Lits(s) + [AnySeq] == [AnySeq] + rest;
    LeadingAnySeq(x, rest);
    forall k | 0 <= k <= |x|
      ensures Like(x[k..], rest) <==> FoldsAt(x, s, k)
    {
      PrefixMatch(x[k..], s);
      if |s| <= |x[k..]| {
        assert x[k..][..|s|] == x[k..k + |s|];
      }
    }
    if Like(x, [AnySeq] + rest) {
      var k :| 0 <= k <= |x| && Like(x[k..], rest);
      assert FoldsAt(x, s, k);
    }
    if ContainsFold(x, s) {
      var k :| FoldsAt(x, s, k);
      assert Like(x[k..], rest);
    }
  }

  function TokOf(c: char): Tok
  {
    if c == '%' then AnySeq else if c == '_' then AnyChar else Lit(c)
  }

  /** One unescaped pattern character compiles to one token. */
  lemma CompileStep(p: string, c: char, rest: string)
    requires p == [c] + rest && c != '\\'
    ensures CompileLike(p) == Prepend([TokOf(c)], CompileLike(rest))
  {
    assert p[0] == c && p[1..] == rest;
  }

  lemma CompileEmpty()
    ensures CompileLike("") == Some([])
  {
  }

  /** The tokens of a pattern without escapes, one per character. */
  function Toks(s: string): (t: seq<Tok>)
    ensures |t| == |s|
    ensures forall i :: 0 <= i < |s| ==> t[i] == TokOf(s[i])
  {
    seq(|s|, i requires 0 <= i < |s| => TokOf(s[i]))
  }

  /** A pattern without a backslash compiles character by character. */
  lemma {:induction false} CompileUnescaped(p: string)
    requires forall i :: 0 <= i < |p| ==> p[i] != '\\'
    ensures CompileLike(p) == Some(Toks(p))
    decreases |p|
  {
    if p != [] {
      var tail := p[1..];
      assert p == [p[0]] + tail;
      CompileStep(p, p[0], tail);
      assert forall i :: 0 <= i < |tail| ==> tail[i] == p[i + 1];
      CompileUnescaped(tail);
      ToksCons(p);
    }
  }

  lemma ToksCons(p: string)
    requires p != []
    ensures Toks(p) == [TokOf(p[0])] + Toks(p[1..])
  {
    var ts := [TokOf(p[0])] + Toks(p[1..]);
    assert forall i :: 0 <= i < |p| ==> ts[i] == Toks(p)[i];
  }

  /** `_` in the argument is not escaped: it compiles to a one-character
      wildcard. */
  lemma UnderscoreIsWildcard()
    ensures CompileLike(SurnamePattern("sm_th")) == Some([AnySeq, Lit('s'), Lit('m'), AnyChar, Lit('t'), Lit('h'), AnySeq])
  {
    var q := SurnamePattern("sm_th");
    assert q == ['%', 's', 'm', '_', 't', 'h', '%'];
    CompileUnescaped(q);
    var t := Toks(q);
    assert t[0] == AnySeq && t[1] == Lit('s') && t[2] == Lit('m') && t[3] == AnyChar;
    assert t[4] == Lit('t') && t[5] == Lit('h') && t[6] == AnySeq;
    assert t == [AnySeq, Lit('s'), Lit('m'), AnyChar, Lit('t'), Lit('h'), AnySeq];
  }

  /** So searching "sm_th" finds "Smith", which does not contain "sm_th". */
  lemma UnderscoreFindsSmith()
    ensures Like("Smith", [AnySeq, Lit('s'), Lit('m'), AnyChar, Lit('t'), Lit('h'), AnySeq])
    ensures !ContainsFold("Smith", "sm_th")
  {
    var p := [AnySeq, Lit('s'), Lit('m'), AnyChar, Lit('t'), Lit('h'), AnySeq];
    var x := "Smith";
    AnySeqMatchesAll("");
    assert p[6..] == [AnySeq];
    assert x[5..] == "";
    assert Like(x[4..], p[5..]) by { assert x[4..][1..] == x[5..] && p[5..][1..] == p[6..]; }
    assert Like(x[3..], p[4..]) by { assert x[3..][1..] == x[4..] && p[4..][1..] == p[5..]; }
    assert Like(x[2..], p[3..]) by { assert x[2..][1..] == x[3..] && p[3..][1..] == p[4..]; }
    assert Like(x[1..], p[2..]) by { assert x[1..][1..] == x[2..] && p[2..][1..] == p[3..]; }
    assert Like(x, p[1..]) by { assert x[1..] == x[1..] && p[1..][1..] == p[2..]; }
    assert p[1..] == p[1..];
    assert Like(x, p) by { assert p[0] == AnySeq; }
    assert Lower(x[0..5])[2] != Lower("sm_th")[2];
    assert forall k :: FoldsAt(x, "sm_th", k) ==> k == 0;
  }

  /** `%` in the argument is not escaped: searching "%" finds every row. */
  lemma PercentMatchesEverything(x: string)
    ensures CompileLike(SurnamePattern("%")) == Some([AnySeq, AnySeq, AnySeq])
    ensures Like(x, [AnySeq, AnySeq, AnySeq])
  {
    CompileEmpty();
    CompileStep("%", '%', "");
    assert [AnySeq] + [] == [AnySeq];
    CompileStep("%%", '%', "%");
    assert [AnySeq] + [AnySeq] == [AnySeq, AnySeq];
    CompileStep("%%%", '%', "%%");
    assert [AnySeq] + [AnySeq, AnySeq] == [AnySeq, AnySeq, AnySeq];
    assert SurnamePattern("%") == "%%%";
    AnySeqMatchesAll(x);
    LeadingAnySeq(x, [AnySeq]);
    assert x[0..] == x;
    LeadingAnySeq(x, [AnySeq, AnySeq]);
  }

  /** A backslash at the end of the argument escapes the closing `%`: searching
      `a\` finds the surnames that end in "a%". */
  lemma TrailingBackslashEscapesPercent()
    ensures CompileLike(SurnamePattern("a\\")) == Some([AnySeq, Lit('a'), Lit('%')])
  {
    var e := "\\%";
    assert e != [] && e[0] == '\\' && |e| == 2 && e[1] == '%' && e[2..] == [];
    CompileEmpty();
    assert [Lit('%')] + [] == [Lit('%')];
    assert CompileLike(e) == Some([Lit('%')]);
    CompileStep("a" + e, 'a', e);
    assert [Lit('a')] + [Lit('%')] == [Lit('a'), Lit('%')];
    CompileStep("%a" + e, '%', "a" + e);
    assert [AnySeq] + [Lit('a'), Lit('%')] == [AnySeq, Lit('a'), Lit('%')];
    assert SurnamePattern("a\\") == "%a" + e;
  }

  /** The search pattern always ends in `%`, so it never ends in a lone
      escape character and the database never rejects it. */
  lemma {:induction false} PatternEndingInPercentCompiles(p: string)
    ensures CompileLike(p + "%").Some?
    decreases |p|
  {
    var q := p + "%";
    if p == [] {
      assert q[1..] == [];
    } else if p[0] == '\\' {
      if |p| == 1 {
        assert q[2..] == [];
      } else {
        assert q[2..] == p[2..] + "%";
        PatternEndingInPercentCompiles(p[2..]);
      }
    } else {
      assert q[1..] == p[1..] + "%";
      PatternEndingInPercentCompiles(p[1..]);
    }
  }

  lemma SurnamePatternCompiles(surname: string)
    ensures CompileLike(SurnamePattern(surname)).Some?
  {
    assert SurnamePattern(surname) == ("%" + surname) + "%";
    PatternEndingInPercentCompiles("%" + surname);
  }

  // ---------------------------------------------------------------------
  // The table

  /** The result of a successful search: every matching row exactly once,
      in no particular order (the query has no ORDER BY). */
  ghost predicate Enumerates(rows: map<uint64, Record>, pat: seq<Tok>, records: seq<Record>)
  {
    && (forall i :: 0 <= i < |records| ==>
          records[i].id in rows && rows[records[i].id] == records[i] && Like(records[i].surname, pat))
    && (forall id :: id in rows && Like(rows[id].surname, pat) ==> rows[id] in records)
    && (forall i, j :: 0 <= i < j < |records| ==> records[i].id != records[j].id)
  }

  /** The row after `UpdateUser`: only the pass and the check-in flag come
      from the argument. */
  function Merge(row: Record, data: Record): (r: Record)
    ensures r.covidPass == data.covidPass && r.checkin == data.checkin
    ensures r.(covidPass := row.covidPass, checkin := row.checkin) == row
  {
    row.(covidPass := data.covidPass, checkin := data.checkin)
  }

  /** The error `UpdateUser` returns. The write-back selects the row by its
      primary key only when that key is non-zero; with a zero key the ORM
      refuses the statement before it reaches the database (global updates
      are not enabled). */
  function UpdateError(rows: map<uint64, Record>, data: Record, db: Faults): Option<Error>
  {
    if db.lookup.Some? then Some(Other(db.lookup.value))
    else if data.id !in rows then Some(Sentinel(RecordNotFound))
    else if data.id == 0 then Some(Sentinel(MissingWhereClause))
    else if db.write.Some? then Some(Other(db.write.value))
    else None
  }

  /** The table after `UpdateUser`. */
  function UpdatedRows(rows: map<uint64, Record>, data: Record, db: Faults): map<uint64, Record>
  {
    if UpdateError(rows, data, db).None? then rows[data.id := Merge(rows[data.id], data)] else rows
  }

  /** An update either fails and leaves the table as it was, or succeeds and
      changes exactly the two columns of exactly the one row. */
  lemma UpdateChangesOnlyTwoColumns(rows: map<uint64, Record>, data: Record, db: Faults)
    ensures UpdateError(rows, data, db).Some? ==> UpdatedRows(rows, data, db) == rows
    ensures UpdateError(rows, data, db).None? ==>
      && data.id in rows && data.id != 0
      && UpdatedRows(rows, data, db).Keys == rows.Keys
      && (forall id :: id in rows && id != data.id ==> UpdatedRows(rows, data, db)[id] == rows[id])
      && UpdatedRows(rows, data, db)[data.id].covidPass == data.covidPass
      && UpdatedRows(rows, data, db)[data.id].checkin == data.checkin
      && UpdatedRows(rows, data, db)[data.id].(covidPass := rows[data.id].covidPass,
                                               checkin := rows[data.id].checkin) == rows[data.id]
  {
  }

  /** A missing id yields the ORM's not-found error, which the classifier
      does not know, so the caller sees 500 rather than 404. */
  lemma MissingIdIsInternalError(rows: map<uint64, Record>, data: Record)
    requires data.id !in rows
    ensures UpdateError(rows, data, NoFaults) == Some(Sentinel(RecordNotFound))
    ensures StatusCode(UpdateError(rows, data, NoFaults)) == StatusInternalServerError
    ensures UpdatedRows(rows, data, NoFaults) == rows
  {
  }

  /** A stored row with id 0 is found by the lookup but cannot be written
      back: the ORM refuses an update without a WHERE condition, which
      classifies as 500, and the table is unchanged. */
  lemma ZeroIdIsRefused(rows: map<uint64, Record>, data: Record, db: Faults)
    requires data.id == 0 && 0 in rows && db.lookup.None?
    ensures UpdateError(rows, data, db) == Some(Sentinel(MissingWhereClause))
    ensures StatusCode(UpdateError(rows, data, db)) == StatusInternalServerError
    ensures UpdatedRows(rows, data, db) == rows
  {
  }

  class UserTable {
    var rows: map<uint64, Record>

    /** Every row is stored under its own id. */
    ghost predicate Valid()
      reads this
    {
      forall id :: id in rows ==> rows[id].id == id
    }

    constructor (initial: map<uint64, Record>)
      requires forall id :: id in initial ==> initial[id].id == id
      ensures Valid() && rows == initial
    {
      rows := initial;
    }

    /** `FindBySurname`: the rows whose surname matches `%surname%`, or a
        wrapped database error and no rows. */
    method FindBySurname(surname: string, db: Faults) returns (records: seq<Record>, err: Option<Error>)
      requires Valid()
      ensures err.Some? ==> records == []
      ensures db.find.Some? ==> err == Some(Wrapped(Other(db.find.value), db.find.value))
      ensures err.None? <==> db.find.None?
      ensures CompileLike(SurnamePattern(surname)).Some?
      ensures err.None? ==> Enumerates(rows, CompileLike(SurnamePattern(surname)).value, records)
    {
      SurnamePatternCompiles(surname);
      if db.find.Some? {
        return [], Some(Wrapped(Other(db.find.value), db.find.value));
      }
      var pat := CompileLike(SurnamePattern(surname)).value;
      var remaining := rows.Keys;
      records := [];
      while remaining != {}
        invariant remaining <= rows.Keys
        invariant forall i :: 0 <= i < |records| ==>
          records[i].id in rows && records[i].id !in remaining &&
          rows[records[i].id] == records[i] && Like(records[i].surname, pat)
        invariant forall id :: id in rows && id !in remaining && Like(rows[id].surname, pat) ==> rows[id] in records
        invariant forall i, j :: 0 <= i < j < |records| ==> records[i].id != records[j].id
        decreases remaining
      {
        var id :| id in remaining;
        if Like(rows[id].surname, pat) {
          records := records + [rows[id]];
        }
        remaining := remaining - {id};
      }
      err := None;
    }

    /** `UpdateUser`: load the row by id, overwrite the pass and the
        check-in flag, write the whole row back. */
    method UpdateUser(data: Record, db: Faults) returns (err: Option<Error>)
      requires Valid()
      modifies this
      ensures Valid()
      ensures err == UpdateError(old(rows), data, db)
      ensures rows == UpdatedRows(old(rows), data, db)
    {
      if db.lookup.Some? {
        return Some(Other(db.lookup.value));
      }
      if data.id !in rows {
        return Some(Sentinel(RecordNotFound));
      }
      var record := rows[data.id];
      record := record.(covidPass := data.covidPass);
      record := record.(checkin := data.checkin);
      if record.id == 0 {
        return Some(Sentinel(MissingWhereClause));
      }
      if db.write.Some? {
        return Some(Other(db.write.value));
      }
      rows := rows[data.id := record];
      err := None;
    }
  }
}
