/** The reporting service: the `reports` table with report creation, lookup
    and the partial status update (reporting-service/app/crud.py), and the
    report generation job that completes or fails a report
    (reporting-service/app/utils.py). */
module Reporting {
  import opened Common
  import opened SqlUpdate

  /** A row of `reports`. */
  datatype Report = Report(id: int, reportType: string, status: string, createdAt: Timestamp,
                           completedAt: Option<Timestamp>, filePath: Option<string>)

  /** `ReportCreate`. */
  datatype ReportCreate = ReportCreate(reportType: string)

  /** Python's truth value of the optional `file_path` argument: given and
      not empty. */
  predicate Truthy(filePath: Option<string>) {
    filePath.Some? && filePath.value != ""
  }

  /** The column order of `update_report_status`. */
  const ReportColumns: seq<string> := ["status", "file_path", "completed_at"]

  /** `status` is bound iff it is not empty. */
  function StatusValue(status: string): Option<SqlValue> {
    if status != "" then Some(Text(status)) else None
  }

  /** `file_path` is bound iff it is truthy. */
  function PathValue(filePath: Option<string>): Option<SqlValue> {
    if Truthy(filePath) then Some(Text(filePath.value)) else None
  }

  /** `completed_at` is bound to the clock reading iff `file_path` is truthy. */
  function CompletedValue(filePath: Option<string>, now: Timestamp): Option<SqlValue> {
    if Truthy(filePath) then Some(Stamp(now)) else None
  }

  /** The optional new values, in the column order of `update_report_status`. */
  function ReportValues(status: string, filePath: Option<string>, now: Timestamp): seq<Option<SqlValue>> {
    [StatusValue(status), PathValue(filePath), CompletedValue(filePath, now)]
  }

  /** The assignments `update_report_status` emits. */
  function ReportAssignments(status: string, filePath: Option<string>, now: Timestamp): seq<Assignment> {
    Emit(ReportColumns, ReportValues(status, filePath, now))
  }

  /** The same list, one optional clause per column. */
  lemma ReportAssignmentsUnfold(status: string, filePath: Option<string>, now: Timestamp)
    ensures ReportAssignments(status, filePath, now) ==
      Optional("status", StatusValue(status)) + Optional("file_path", PathValue(filePath))
      + Optional("completed_at", CompletedValue(filePath, now))
  {
    var cs, vs := ReportColumns, ReportValues(status, filePath, now);
    assert cs[3..] == [] && vs[3..] == [];
    assert Emit(cs[2..], vs[2..]) == Optional(cs[2], vs[2]) + Emit(cs[3..], vs[3..]);
    assert Emit(cs[1..], vs[1..]) == Optional(cs[1], vs[1]) + Emit(cs[2..], vs[2..]);
  }

  /** The effect of one `column = value` on a `reports` row. */
  function AssignReport(row: Report, a: Assignment): Report {
    match (a.column, a.value)
    case ("status", Text(s)) => row.(status := s)
    case ("file_path", Text(s)) => row.(filePath := Some(s))
    case ("completed_at", Stamp(t)) => row.(completedAt := Some(t))
    case _ => row
  }

  /** The row an update should leave: a non-empty status replaces the old
      one; a truthy file path is stored together with the completion time. */
  function Patched(row: Report, status: string, filePath: Option<string>, now: Timestamp): Report {
    row.(status := if status != "" then status else row.status,
         filePath := if Truthy(filePath) then filePath else row.filePath,
         completedAt := if Truthy(filePath) then Some(now) else row.completedAt)
  }

  /** `status` is emitted iff it is not empty; `file_path` and
      `completed_at` are emitted together, iff the file path is truthy; the
      order is status, file_path, completed_at; nothing else is emitted. */
  lemma ReportUpdateColumns(status: string, filePath: Option<string>, now: Timestamp)
    ensures InOrder(Columns(ReportAssignments(status, filePath, now)), ReportColumns)
    ensures "status" in Columns(ReportAssignments(status, filePath, now)) <==> status != ""
    ensures "file_path" in Columns(ReportAssignments(status, filePath, now)) <==> Truthy(filePath)
    ensures "completed_at" in Columns(ReportAssignments(status, filePath, now)) <==> Truthy(filePath)
    ensures forall c :: c in Columns(ReportAssignments(status, filePath, now)) ==> c in ReportColumns
    ensures ReportAssignments(status, filePath, now) == [] <==> status == "" && !Truthy(filePath)
  {
    var cs, vs := ReportColumns, ReportValues(status, filePath, now);
    EmitInOrder(cs, vs);
    EmitOnlyColumns(cs, vs);
    EmitEmpty(cs, vs);
    EmitPresent(cs, vs, 0);
    EmitPresent(cs, vs, 1);
    EmitPresent(cs, vs, 2);
  }

  /** Executing the emitted SET list has the effect `Patched` describes. */
  lemma ReportUpdateEffect(row: Report, status: string, filePath: Option<string>, now: Timestamp)
    ensures ApplyAll(row, ReportAssignments(status, filePath, now), AssignReport) == Patched(row, status, filePath, now)
  {
    var s, f := Optional("status", StatusValue(status)), Optional("file_path", PathValue(filePath));
    var c := Optional("completed_at", CompletedValue(filePath, now));
    ReportAssignmentsUnfold(status, filePath, now);
    ApplyAllAppend(row, s + f, c, AssignReport);
    ApplyAllAppend(row, s, f, AssignReport);
    var r1 := ApplyAll(row, s, AssignReport);
    var r2 := ApplyAll(r1, f, AssignReport);
    ApplyOptional(row, "status", StatusValue(status), AssignReport);
    ApplyOptional(r1, "file_path", PathValue(filePath), AssignReport);
    ApplyOptional(r2, "completed_at", CompletedValue(filePath, now), AssignReport);
  }

  /** The statement holds one `%s` per bound parameter, the id last. */
  lemma ReportUpdateWellFormed(reportId: int, status: string, filePath: Option<string>, now: Timestamp)
    ensures Placeholders(UpdateSql("reports", Fields(ReportAssignments(status, filePath, now))))
         == |Params(ReportAssignments(status, filePath, now), reportId)|
    ensures Params(ReportAssignments(status, filePath, now), reportId)[|ReportAssignments(status, filePath, now)|]
         == Integer(reportId)
  {
    EmitPlaceholders("reports", ReportColumns, ReportValues(status, filePath, now), reportId);
  }

  /** The `fields` and `params` lists of `update_report_status`, built by
      appends. */
  method BuildReportUpdate(reportId: int, status: string, filePath: Option<string>, now: Timestamp)
    returns (fields: seq<string>, params: seq<SqlValue>)
    ensures fields == Fields(ReportAssignments(status, filePath, now))
    ensures params == Params(ReportAssignments(status, filePath, now), reportId)
  {
    ReportAssignmentsUnfold(status, filePath, now);
    ghost var s, f := Optional("status", StatusValue(status)), Optional("file_path", PathValue(filePath));
    ghost var c := Optional("completed_at", CompletedValue(filePath, now));
    fields, params := [], [];
    ghost var asg: seq<Assignment> := [];
    if status != "" {
      Snoc(asg, Assignment("status", Text(status)));
      fields := fields + [Clause("status")];
      params := params + [Text(status)];
      asg := asg + [Assignment("status", Text(status))];
    }
    assert asg == s && fields == Fields(asg) && params == Values(asg);
    if filePath.Some? && filePath.value != "" {
      Snoc(asg, Assignment("file_path", Text(filePath.value)));
      fields := fields + [Clause("file_path")];
      params := params + [Text(filePath.value)];
      asg := asg + [Assignment("file_path", Text(filePath.value))];
      Snoc(asg, Assignment("completed_at", Stamp(now)));
      fields := fields + [Clause("completed_at")];
      params := params + [Stamp(now)];
      asg := asg + [Assignment("completed_at", Stamp(now))];
    }
    assert asg == s + f + c;
    params := params + [Integer(reportId)];
  }

  /** The character of a decimal digit. */
  function DigitChar(d: int): (c: char)
    requires 0 <= d < 10
    ensures '0' <= c <= '9' && c as int - '0' as int == d
  {
    (48 + d) as char
  }

  /** The decimal digits of a natural number, most significant first. */
  function NatToString(n: nat): (s: string)
    ensures |s| >= 1 && (n < 10 <==> |s| == 1)
    ensures forall k :: 0 <= k < |s| ==> '0' <= s[k] <= '9'
  {
    if n < 10 then [DigitChar(n)] else NatToString(n / 10) + [DigitChar(n % 10)]
  }

  /** Python's `str` of an integer. */
  function IntToString(n: int): (s: string)
    ensures |s| >= 1
    ensures s[0] == '-' <==> n < 0
  {
    if n < 0 then "-" + NatToString(-n) else NatToString(n)
  }

  /** Different numbers have different decimal representations. */
  lemma {:induction false} NatToStringInjective(a: nat, b: nat)
    requires NatToString(a) == NatToString(b)
    ensures a == b
  {
    var s := NatToString(a);
    assert DigitChar(a % 10) == s[|s| - 1] == DigitChar(b % 10);
    if a >= 10 {
      assert NatToString(a / 10) == s[..|s| - 1] == NatToString(b / 10);
      NatToStringInjective(a / 10, b / 10);
    }
  }

  lemma IntToStringInjective(a: int, b: int)
    requires IntToString(a) == IntToString(b)
    ensures a == b
  {
    if a < 0 {
      assert NatToString(-a) == IntToString(a)[1..] == NatToString(-b);
      NatToStringInjective(-a, -b);
    } else {
      NatToStringInjective(a, b);
    }
  }

  /** The file path `generate_report` stores: `/reports/report_<id>.pdf`. */
  function ReportPath(reportId: int): (path: string)
    ensures Truthy(Some(path))
  {
    "/reports/report_" + IntToString(reportId) + ".pdf"
  }

  /** Every report gets a file of its own. */
  lemma ReportPathInjective(a: int, b: int)
    requires ReportPath(a) == ReportPath(b)
    ensures a == b
  {
    var p, sa, sb := "/reports/report_", IntToString(a), IntToString(b);
    assert |sa| == |sb|;
    assert sa == ReportPath(a)[|p|..|p| + |sa|];
    assert sb == ReportPath(b)[|p|..|p| + |sb|];
    IntToStringInjective(a, b);
  }

  /** What `generate_report` does to a report: on success an update to
      'Completed' with the report's file path (and so the completion time);
      on an exception an update of the status alone to 'Failed'. */
  function Generated(row: Report, now: Timestamp, fails: bool): Report {
    if fails then row.(status := "Failed")
    else row.(status := "Completed", filePath := Some(ReportPath(row.id)), completedAt := Some(now))
  }

  /** The two calls `generate_report` makes have that effect. */
  lemma GeneratedIsUpdate(row: Report, now: Timestamp, fails: bool)
    ensures fails ==> Patched(row, "Failed", None, now) == Generated(row, now, fails)
    ensures !fails ==> Patched(row, "Completed", Some(ReportPath(row.id)), now) == Generated(row, now, fails)
  {
  }

  /** The states a report passes through: Pending with neither a file nor a
      completion time, Completed with both, Failed with neither. */
  predicate Lifecycle(row: Report) {
    || (row.status == "Pending" && row.filePath.None? && row.completedAt.None?)
    || (row.status == "Completed" && row.filePath.Some? && row.completedAt.Some?)
    || (row.status == "Failed" && row.filePath.None? && row.completedAt.None?)
  }

  /** A pending report goes to Completed, with the file path of its id and
      the completion time, or to Failed, with neither. */
  lemma GenerateFromPending(row: Report, now: Timestamp, fails: bool)
    requires Lifecycle(row) && row.status == "Pending"
    ensures Lifecycle(Generated(row, now, fails))
    ensures Generated(row, now, fails).status == (if fails then "Failed" else "Completed")
    ensures Generated(row, now, fails).filePath.Some? <==> !fails
    ensures !fails ==> Generated(row, now, fails).filePath == Some(ReportPath(row.id))
    ensures !fails ==> Generated(row, now, fails).completedAt == Some(now)
    ensures Generated(row, now, fails).reportType == row.reportType && Generated(row, now, fails).createdAt == row.createdAt
  {
  }

  /** The `reports` table: rows by id and the next SERIAL value. A file path
      is never stored without a completion time, nor the other way round. */
  class ReportStore {
    var rows: map<int, Report>
    var nextId: int

    ghost predicate Valid()
      reads this
    {
      && nextId > 0
      && (forall id :: id in rows ==> rows[id].id == id && 0 < id < nextId)
      && (forall id :: id in rows ==> (rows[id].filePath.Some? <==> rows[id].completedAt.Some?))
    }

    constructor ()
      ensures Valid() && rows == map[] && nextId == 1
    {
      rows := map[];
      nextId := 1;
    }

    /** `get_report`: the row with that id, if any. */
    function GetReport(reportId: int): (r: Option<Report>)
      reads this
      ensures r.None? <==> reportId !in rows
      ensures r.Some? ==> r.value == rows[reportId]
    {
      if reportId in rows then Some(rows[reportId]) else None
    }

    /** `create_report`: a new report of the requested type, 'Pending',
        created at the clock reading `now`. */
    method CreateReport(c: ReportCreate, now: Timestamp) returns (report: Report)
      requires Valid()
      modifies this
      ensures Valid()
      ensures report == Report(old(nextId), c.reportType, "Pending", now, None, None)
      ensures Lifecycle(report)
      ensures rows == old(rows)[report.id := report] && nextId == old(nextId) + 1
    {
      report := Report(nextId, c.reportType, "Pending", now, None, None);
      rows := rows[nextId := report];
      nextId := nextId + 1;
    }

    /** `update_report_status`: runs the assembled partial UPDATE. With
        neither value given the SET list is empty, a syntax error; a missing
        id updates nothing. */
    method UpdateReportStatus(reportId: int, status: string, filePath: Option<string>, now: Timestamp)
      returns (r: Result<()>)
      requires Valid()
      modifies this
      ensures Valid() && nextId == old(nextId)
      ensures ReportAssignments(status, filePath, now) == [] ==> r == Failure(EmptySetClause) && rows == old(rows)
      ensures ReportAssignments(status, filePath, now) != [] ==> r == Success(())
      ensures ReportAssignments(status, filePath, now) != [] && reportId !in old(rows) ==> rows == old(rows)
      ensures ReportAssignments(status, filePath, now) != [] && reportId in old(rows) ==>
        rows == old(rows)[reportId := Patched(old(rows)[reportId], status, filePath, now)]
    {
      var fields, params := BuildReportUpdate(reportId, status, filePath, now);
      var asg := ReportAssignments(status, filePath, now);
      if |fields| == 0 {
        return Failure(EmptySetClause);
      }
      if reportId in rows {
        ReportUpdateEffect(rows[reportId], status, filePath, now);
        rows := rows[reportId := ApplyAll(rows[reportId], asg, AssignReport)];
      }
      r := Success(());
    }

    /** `generate_report`: `fails` says whether the work before the final
        update raised. */
    method GenerateReport(reportId: int, now: Timestamp, fails: bool)
      requires Valid()
      modifies this
      ensures Valid() && nextId == old(nextId)
      ensures reportId !in old(rows) ==> rows == old(rows)
      ensures reportId in old(rows) ==> rows == old(rows)[reportId := Generated(old(rows)[reportId], now, fails)]
    {
      ghost var before := rows;
      if !fails {
        var path := ReportPath(reportId);
        ReportUpdateColumns("Completed", Some(path), now);
        var _ := UpdateReportStatus(reportId, "Completed", Some(path), now);
      } else {
        ReportUpdateColumns("Failed", None, now);
        var _ := UpdateReportStatus(reportId, "Failed", None, now);
      }
      if reportId in before {
        GeneratedIsUpdate(before[reportId], now, fails);
      }
    }
  }
}
