/**
 * The `alerts` and `profiles` tables as values, and the two queries the
 * dashboards issue against them: the staff feed's select (optional type
 * predicate, newest first, joined to the submitter's profile) and the
 * status update. Inserting a student's payload is here too, with the
 * columns the store fills in itself (id, creation time, pending status).
 */
module AlertStore {
  import opened Wrappers
  import opened Geolocation

  /** The `status` column: the only two values the dashboards know. */
  datatype Status = Pending | Completed

  /** The profile columns the staff feed joins in. */
  datatype StudentInfo = StudentInfo(fullName: string, studentId: string, department: string, year: int)

  /** One row of the `alerts` table; `location` stands for the lat/lng column pair. */
  datatype AlertRecord = AlertRecord(
    id: string,
    studentId: string,
    alertType: string,
    location: Option<Coords>,
    description: Option<string>,
    createdAt: int,
    status: Status)

  /** What a student's client hands to `insert`: the store adds id, time and status. */
  datatype Payload = Payload(
    studentId: string,
    alertType: string,
    description: Option<string>,
    location: Option<Coords>)

  /** The two tables: alerts in table order, profiles by user id. */
  datatype Store = Store(alerts: seq<AlertRecord>, profiles: map<string, StudentInfo>)

  /** A selected alert row with its `student:profiles(...)` join, `None` when the join found nothing. */
  datatype JoinedRow = JoinedRow(record: AlertRecord, student: Option<StudentInfo>)

  /** The three alert types a student can raise. */
  const High: string := "high"
  const Moderate: string := "moderate"
  const General: string := "general"

  /** The filter value that adds no predicate to the query. */
  const AllTypes: string := "all"

  // ---------------------------------------------------------------------
  // insert

  /** The row the store creates for an insert: pending, with its own id and time. */
  function Insert(store: Store, p: Payload, id: string, createdAt: int): (s: Store)
    ensures s.profiles == store.profiles
    ensures |s.alerts| == |store.alerts| + 1 && s.alerts[..|store.alerts|] == store.alerts
    ensures s.alerts[|store.alerts|].status == Pending
    ensures s.alerts[|store.alerts|].id == id && s.alerts[|store.alerts|].createdAt == createdAt
    ensures var r := s.alerts[|store.alerts|];
      r.studentId == p.studentId && r.alertType == p.alertType &&
      r.location == p.location && r.description == p.description
  {
    store.(alerts := store.alerts + [AlertRecord(id, p.studentId, p.alertType, p.location, p.description, createdAt, Pending)])
  }

  // ---------------------------------------------------------------------
  // select: `.eq('alert_type', t)` and `.order('created_at', { ascending: false })`

  /** Keeping the head of a newest-first list in front of rows drawn from its tail keeps the order. */
  lemma KeepHeadNewestFirst(rows: seq<AlertRecord>, rest: seq<AlertRecord>)
    requires rows != []
    requires forall a :: a in rest ==> a in rows[1..]
    requires NewestFirst(rows[1..]) ==> NewestFirst(rest)
    ensures NewestFirst(rows) ==> NewestFirst([rows[0]] + rest)
  {
    if NewestFirst(rows) {
      assert NewestFirst(rows[1..]);
      forall k | 0 <= k < |rest| ensures rest[k].createdAt <= rows[0].createdAt {
        assert rest[k] in rest;
        HeadIsNewest(rows, rest[k]);
      }
      ConsNewestFirst(rows[0], rest);
    }
  }

  /** The rows whose `alert_type` equals `t`, in table order. */
  function OfType(rows: seq<AlertRecord>, t: string): (r: seq<AlertRecord>)
    ensures |r| <= |rows|
    ensures forall a :: a in r <==> a in rows && a.alertType == t
    ensures NewestFirst(rows) ==> NewestFirst(r)
  {
    if rows == [] then []
    else
      var rest := OfType(rows[1..], t);
      assert forall a :: a in rows[1..] ==> a in rows;
      if rows[0].alertType == t then
        KeepHeadNewestFirst(rows, rest);
        [rows[0]] + rest
      else
        assert NewestFirst(rows) ==> NewestFirst(rows[1..]);
        rest
  }

  /** The rows a filter value lets through: all of them for "all". */
  function Matching(rows: seq<AlertRecord>, filter: string): (r: seq<AlertRecord>)
    ensures forall a :: a in r <==> a in rows && (filter == AllTypes || a.alertType == filter)
    ensures filter == AllTypes ==> r == rows
  {
    if filter == AllTypes then rows else OfType(rows, filter)
  }

  /** The type predicate keeps every row of type `t` as often as the table holds it, and no other row. */
  lemma {:induction false} OfTypeCounts(rows: seq<AlertRecord>, t: string, a: AlertRecord)
    ensures multiset(OfType(rows, t))[a] == if a.alertType == t then multiset(rows)[a] else 0
  {
    if rows != [] {
      OfTypeCounts(rows[1..], t, a);
      assert rows == [rows[0]] + rows[1..];
      assert multiset(rows) == multiset([rows[0]]) + multiset(rows[1..]);
      if rows[0].alertType == t {
        assert OfType(rows, t) == [rows[0]] + OfType(rows[1..], t);
      } else {
        assert OfType(rows, t) == OfType(rows[1..], t);
      }
    }
  }

  /** Most recent first: `created_at` never increases along the sequence. */
  ghost predicate NewestFirst(rows: seq<AlertRecord>)
  {
    forall i, j :: 0 <= i < j < |rows| ==> rows[i].createdAt >= rows[j].createdAt
  }

  /** A row no older than anything in a newest-first list can go in front of it. */
  lemma ConsNewestFirst(h: AlertRecord, rest: seq<AlertRecord>)
    requires NewestFirst(rest)
    requires forall k :: 0 <= k < |rest| ==> rest[k].createdAt <= h.createdAt
    ensures NewestFirst([h] + rest)
  {
    var r := [h] + rest;
    forall i, j | 0 <= i < j < |r| ensures r[i].createdAt >= r[j].createdAt {
      if i > 0 {
        assert r[i] == rest[i - 1] && r[j] == rest[j - 1];
      } else {
        assert r[j] == rest[j - 1];
      }
    }
  }

  /** In a newest-first list, every row is no newer than the head. */
  lemma HeadIsNewest(s: seq<AlertRecord>, a: AlertRecord)
    requires NewestFirst(s) && s != [] && a in s
    ensures a.createdAt <= s[0].createdAt
  {
    var m :| 0 <= m < |s| && s[m] == a;
    if m > 0 {
      assert s[0].createdAt >= s[m].createdAt;
    }
  }

  /** Places `x` in front of the first row strictly older than it. */
  function InsertByDate(x: AlertRecord, s: seq<AlertRecord>): (r: seq<AlertRecord>)
    requires NewestFirst(s)
    ensures NewestFirst(r)
    ensures multiset(r) == multiset(s) + multiset{x}
    ensures forall a :: a in r ==> a == x || a in s
  {
    if s == [] || x.createdAt >= s[0].createdAt then
      ConsNewestFirst(x, s);
      [x] + s
    else
      var rest := InsertByDate(x, s[1..]);
      assert s == [s[0]] + s[1..];
      forall k | 0 <= k < |rest| ensures rest[k].createdAt <= s[0].createdAt {
        assert rest[k] in rest;
        if rest[k] != x {
          HeadIsNewest(s, rest[k]);
        }
      }
      ConsNewestFirst(s[0], rest);
      [s[0]] + rest
  }

  /**
   * The database's ordering by `created_at` descending. Rows with equal
   * times keep their table order.
   */
  function SortNewestFirst(rows: seq<AlertRecord>): (r: seq<AlertRecord>)
    ensures NewestFirst(r)
    ensures multiset(r) == multiset(rows)
  {
    if rows == [] then []
    else
      assert rows == [rows[0]] + rows[1..];
      InsertByDate(rows[0], SortNewestFirst(rows[1..]))
  }

  /**
   * The alert rows the staff query returns for a filter value, before the
   * join: newest first, and exactly the matching rows, each as often as stored.
   */
  function Select(alerts: seq<AlertRecord>, filter: string): (r: seq<AlertRecord>)
    ensures NewestFirst(r)
    ensures multiset(r) == multiset(Matching(alerts, filter))
  {
    SortNewestFirst(Matching(alerts, filter))
  }

  /** A row joined to its submitter's profile, if there is one. */
  function JoinRow(r: AlertRecord, profiles: map<string, StudentInfo>): (j: JoinedRow)
    ensures j.record == r
    ensures j.student.Some? <==> r.studentId in profiles
    ensures j.student.Some? ==> j.student.value == profiles[r.studentId]
  {
    JoinedRow(r, if r.studentId in profiles then Some(profiles[r.studentId]) else None)
  }

  /** Each row joined to its submitter's profile. */
  function Join(rows: seq<AlertRecord>, profiles: map<string, StudentInfo>): (r: seq<JoinedRow>)
    ensures |r| == |rows|
    ensures forall i :: 0 <= i < |rows| ==> r[i] == JoinRow(rows[i], profiles)
  {
    seq(|rows|, i requires 0 <= i < |rows| => JoinRow(rows[i], profiles))
  }

  /** Every row the query returns is a stored row the filter lets through, and every such row is returned. */
  lemma SelectMembers(alerts: seq<AlertRecord>, filter: string, a: AlertRecord)
    ensures a in Select(alerts, filter) <==> a in alerts && (filter == AllTypes || a.alertType == filter)
  {
    assert a in Select(alerts, filter) <==> a in multiset(Select(alerts, filter));
  }

  /** When `x` goes to the front, keeping one type puts it at the front of the kept rows too. */
  lemma OfTypeInsertFront(x: AlertRecord, s: seq<AlertRecord>, t: string)
    requires NewestFirst(s) && (s == [] || x.createdAt >= s[0].createdAt)
    ensures OfType(InsertByDate(x, s), t) ==
      if x.alertType == t then InsertByDate(x, OfType(s, t)) else OfType(s, t)
  {
    assert InsertByDate(x, s) == [x] + s;
    assert ([x] + s)[1..] == s;
    var f := OfType(s, t);
    if f != [] {
      assert f[0] in s;
      HeadIsNewest(s, f[0]);
    }
  }

  /** Keeping one type commutes with placing a row by date. */
  lemma {:induction false} OfTypeInsertByDate(x: AlertRecord, s: seq<AlertRecord>, t: string)
    requires NewestFirst(s)
    ensures OfType(InsertByDate(x, s), t) ==
      if x.alertType == t then InsertByDate(x, OfType(s, t)) else OfType(s, t)
  {
    if s == [] || x.createdAt >= s[0].createdAt {
      OfTypeInsertFront(x, s, t);
    } else {
      var rest := InsertByDate(x, s[1..]);
      assert InsertByDate(x, s) == [s[0]] + rest;
      assert ([s[0]] + rest)[1..] == rest;
      OfTypeInsertByDate(x, s[1..], t);
      if s[0].alertType == t && x.alertType == t {
        var f := OfType(s, t);
        assert f == [s[0]] + OfType(s[1..], t);
        assert f[1..] == OfType(s[1..], t);
      }
    }
  }

  /** Sorting the rows of one type gives what keeping that type of the sorted rows gives. */
  lemma {:induction false} OfTypeSort(rows: seq<AlertRecord>, t: string)
    ensures SortNewestFirst(OfType(rows, t)) == OfType(SortNewestFirst(rows), t)
  {
    if rows != [] {
      OfTypeSort(rows[1..], t);
      OfTypeInsertByDate(rows[0], SortNewestFirst(rows[1..]), t);
      var f := OfType(rows, t);
      if rows[0].alertType == t {
        assert f == [rows[0]] + OfType(rows[1..], t);
        assert f[0] == rows[0] && f[1..] == OfType(rows[1..], t);
      } else {
        assert f == OfType(rows[1..], t);
      }
    }
  }

  /**
   * A typed query returns exactly the rows of that type of the "all"
   * query, in the same order.
   */
  lemma SelectTypedIsSubsetOfAll(alerts: seq<AlertRecord>, t: string)
    requires t != AllTypes
    ensures Select(alerts, t) == OfType(Select(alerts, AllTypes), t)
  {
    OfTypeSort(alerts, t);
  }

  // ---------------------------------------------------------------------
  // update: `.update({ status }).eq('id', alertId)`

  /** Writes `s` into the status of every row with this id and leaves the others alone. */
  function SetStatus(rows: seq<AlertRecord>, id: string, s: Status): (r: seq<AlertRecord>)
    ensures |r| == |rows|
    ensures forall i :: 0 <= i < |rows| ==>
      r[i] == if rows[i].id == id then rows[i].(status := s) else rows[i]
  {
    if rows == [] then []
    else
      var head := if rows[0].id == id then rows[0].(status := s) else rows[0];
      [head] + SetStatus(rows[1..], id, s)
  }

  /** The same update twice leaves what one leaves. */
  lemma SetStatusIdempotent(rows: seq<AlertRecord>, id: string, s: Status)
    ensures SetStatus(SetStatus(rows, id, s), id, s) == SetStatus(rows, id, s)
  {
    var once := SetStatus(rows, id, s);
    var twice := SetStatus(once, id, s);
    assert forall i :: 0 <= i < |rows| ==> twice[i] == once[i];
  }

  /** Of two updates to one row, the later one is what stays. */
  lemma SetStatusLastWriteWins(rows: seq<AlertRecord>, id: string, first: Status, second: Status)
    ensures SetStatus(SetStatus(rows, id, first), id, second) == SetStatus(rows, id, second)
  {
    var a := SetStatus(SetStatus(rows, id, first), id, second);
    var b := SetStatus(rows, id, second);
    assert forall i :: 0 <= i < |rows| ==> a[i] == b[i];
  }
}
