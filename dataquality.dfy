/** The data-quality service: the positivity and email validators
    (data-quality-service/app/validators.py), the per-field rule dispatch of
    `validate_data` and the issue counts of `generate_data_quality_report`
    (data-quality-service/app/utils.py). */
module DataQuality {
  import opened Common

  /** The Python values `is_positive_number` can be given. `bool` is a
      subclass of `int` in Python, so `True` and `False` pass the
      `isinstance(value, (int, float))` test as 1 and 0. */
  datatype PyValue = PyInt(i: int) | PyFloat(f: real) | PyBool(b: bool) | PyOther

  /** `is_positive_number`: an int or float greater than zero. */
  function IsPositiveNumber(value: PyValue): (positive: bool)
    ensures value.PyInt? ==> (positive <==> value.i > 0)
    ensures value.PyFloat? ==> (positive <==> value.f > 0.0)
    ensures value.PyBool? ==> (positive <==> value.b)
    ensures value.PyOther? ==> !positive
  {
    match value
    case PyInt(i) => i > 0
    case PyFloat(f) => f > 0.0
    case PyBool(b) => b
    case PyOther => false
  }

  /** Zero, negatives and non-numbers are rejected. */
  lemma IsPositiveNumberExamples()
    ensures !IsPositiveNumber(PyInt(0)) && !IsPositiveNumber(PyFloat(0.0))
    ensures !IsPositiveNumber(PyInt(-3)) && !IsPositiveNumber(PyFloat(-0.5))
    ensures !IsPositiveNumber(PyOther) && !IsPositiveNumber(PyBool(false))
    ensures IsPositiveNumber(PyInt(1)) && IsPositiveNumber(PyFloat(0.01)) && IsPositiveNumber(PyBool(true))
  {
  }

  /** What `re.match(r"[^@]+@[^@]+\.[^@]+", s)` finds: a prefix of `s` of
      the form A@B.C with A, B and C non-empty and free of '@'. A match of
      C can always be cut back to its first character, so it is enough that
      a character other than '@' follows the dot. */
  ghost predicate EmailPattern(s: string) {
    exists i, j ::
      && 0 < i && i + 1 < j && j + 1 < |s|
      && s[i] == '@' && s[j] == '.' && s[j + 1] != '@'
      && '@' !in s[..i] && '@' !in s[i + 1..j]
  }

  /** The position of the first '@', or the length when there is none. */
  function FirstAt(s: string): (i: nat)
    ensures i <= |s| && '@' !in s[..i]
    ensures i < |s| ==> s[i] == '@'
  {
    if s == [] then 0
    else if s[0] == '@' then 0
    else
      var i := 1 + FirstAt(s[1..]);
      assert s[..i] == [s[0]] + s[1..][..i - 1];
      i
  }

  /** Scans the text after the '@' for a dot at position `j` or later with
      no '@' before it and a character other than '@' after it. */
  function ScanDomain(t: string, j: nat): bool
    decreases |t| - j
  {
    if j + 1 >= |t| then false
    else if t[j] == '@' then false
    else if t[j] == '.' && t[j + 1] != '@' then true
    else ScanDomain(t, j + 1)
  }

  /** A domain part B.C: a non-empty '@'-free B, a dot, and a character
      other than '@'. */
  ghost predicate DomainPattern(t: string, j: nat) {
    exists d :: j <= d && d + 1 < |t| && t[d] == '.' && t[d + 1] != '@' && '@' !in t[..d]
  }

  lemma {:induction false} ScanDomainCorrect(t: string, j: nat)
    requires j <= |t| && '@' !in t[..j]
    ensures ScanDomain(t, j) <==> DomainPattern(t, j)
    decreases |t| - j
  {
    if j + 1 >= |t| {
    } else if t[j] == '@' {
    } else if t[j] == '.' && t[j + 1] != '@' {
      assert j <= j && j + 1 < |t| && t[j] == '.' && t[j + 1] != '@' && '@' !in t[..j];
    } else {
      assert t[..j + 1] == t[..j] + [t[j]];
      ScanDomainCorrect(t, j + 1);
    }
  }

  /** `is_valid_email`, computed: the part before the first '@' is not
      empty, and the text after it holds a domain part B.C. */
  function IsValidEmail(email: string): bool {
    var i := FirstAt(email);
    0 < i < |email| && 1 < |email| - i && email[i + 1] != '@' && ScanDomain(email[i + 1..], 1)
  }

  /** Every address the computed check accepts matches the regular
      expression. */
  lemma ValidEmailMatches(email: string)
    requires IsValidEmail(email)
    ensures EmailPattern(email)
  {
    var i := FirstAt(email);
    var t := email[i + 1..];
    assert t[..1] == [email[i + 1]];
    ScanDomainCorrect(t, 1);
    var d :| 1 <= d && d + 1 < |t| && t[d] == '.' && t[d + 1] != '@' && '@' !in t[..d];
    var j := i + 1 + d;
    assert t[..d] == email[i + 1..j];
    assert 0 < i && i + 1 < j && j + 1 < |email| && email[i] == '@' && email[j] == '.' && email[j + 1] != '@'
      && '@' !in email[..i] && '@' !in email[i + 1..j];
  }

  /** An '@' with none before it is the first one. */
  lemma FirstAtOf(s: string, a: nat)
    requires a < |s| && s[a] == '@' && '@' !in s[..a]
    ensures FirstAt(s) == a
  {
  }

  /** A dot after the first '@', with no '@' between them and a character
      other than '@' after it, is found by the scan. */
  lemma DomainFound(email: string, i: nat, j: nat)
    requires i + 1 < j && j + 1 < |email|
    requires email[i + 1] != '@' && email[j] == '.' && email[j + 1] != '@' && '@' !in email[i + 1..j]
    ensures ScanDomain(email[i + 1..], 1)
  {
    var t := email[i + 1..];
    assert t[..1] == [email[i + 1]];
    var d := j - i - 1;
    assert t[..d] == email[i + 1..j];
    assert 1 <= d && d + 1 < |t| && t[d] == '.' && t[d + 1] != '@' && '@' !in t[..d];
    ScanDomainCorrect(t, 1);
  }

  /** Every address the regular expression matches is accepted by the
      computed check. */
  lemma MatchedEmailValid(email: string)
    requires EmailPattern(email)
    ensures IsValidEmail(email)
  {
    var a, j :| && 0 < a && a + 1 < j && j + 1 < |email|
                && email[a] == '@' && email[j] == '.' && email[j + 1] != '@'
                && '@' !in email[..a] && '@' !in email[a + 1..j];
    FirstAtOf(email, a);
    assert email[a + 1] == email[a + 1..j][0];
    DomainFound(email, a, j);
  }

  /** The computed check accepts exactly what the regular expression
      matches. */
  lemma IsValidEmailCorrect(email: string)
    ensures IsValidEmail(email) <==> EmailPattern(email)
  {
    if IsValidEmail(email) {
      ValidEmailMatches(email);
    }
    if EmailPattern(email) {
      MatchedEmailValid(email);
    }
  }

  /** Every string without '@', and every string starting with '@', is
      rejected; so is the `invalid_email` of the service's tests. */
  lemma NoLocalPartRejected(s: string)
    requires '@' !in s || (s != [] && s[0] == '@')
    ensures !IsValidEmail(s) && !EmailPattern(s)
  {
    IsValidEmailCorrect(s);
  }

  lemma InvalidEmailExamples()
    ensures !IsValidEmail("invalid_email")
    ensures !IsValidEmail("@b.c")
  {
    NoLocalPartRejected("invalid_email");
    NoLocalPartRejected("@b.c");
  }

  /** A conventional address is valid. */
  lemma ConventionalEmailValid()
    ensures IsValidEmail("john@example.com")
  {
    var e := "john@example.com";
    assert e[..4] == "john" && e[5..12] == "example";
    assert 0 < 4 && 4 + 1 < 12 && 12 + 1 < |e| && e[4] == '@' && e[12] == '.' && e[13] != '@'
      && '@' !in e[..4] && '@' !in e[4 + 1..12];
    MatchedEmailValid(e);
  }

  /** Text after a match is ignored: `re.match` anchors only at the
      start. */
  lemma TrailingTextIgnored()
    ensures IsValidEmail("a@b.c@@")
  {
    var s := "a@b.c@@";
    assert s[..1] == "a" && s[2..3] == "b";
    assert 0 < 1 && 1 + 1 < 3 && 3 + 1 < |s| && s[1] == '@' && s[3] == '.' && s[4] != '@'
      && '@' !in s[..1] && '@' !in s[1 + 1..3];
    MatchedEmailValid(s);
  }

  /** `DataInput`. */
  datatype DataInput = DataInput(fieldName: string, value: string)

  /** `ValidationResult`. */
  datatype ValidationResult = ValidationResult(isValid: bool, errors: seq<string>)

  const InvalidEmailMessage: string := "Invalid email format."
  const NotPositiveMessage: string := "Amount must be a positive number."

  /** The error for a field without a rule. */
  function NoRuleMessage(fieldName: string): string {
    "No validation rules defined for field '" + fieldName + "'."
  }

  /** `validate_data`: the rule for the field, at most one error, valid iff
      no error. `parseFloat` is Python's `float(str)`, None where it raises
      ValueError, which `validate_data` does not catch. */
  method ValidateData(data: DataInput, parseFloat: string -> Option<real>) returns (r: Result<ValidationResult>)
    ensures r.Failure? <==> data.fieldName == "amount" && parseFloat(data.value).None?
    ensures r.Failure? ==> r.error == ValueError
    ensures r.Success? ==> |r.value.errors| <= 1 && (r.value.isValid <==> r.value.errors == [])
    ensures data.fieldName == "email" ==>
      r == Success(ValidationResult(IsValidEmail(data.value), if IsValidEmail(data.value) then [] else [InvalidEmailMessage]))
    ensures data.fieldName == "amount" && parseFloat(data.value).Some? ==>
      var positive := IsPositiveNumber(PyFloat(parseFloat(data.value).value));
      r == Success(ValidationResult(positive, if positive then [] else [NotPositiveMessage]))
    ensures data.fieldName != "email" && data.fieldName != "amount" ==>
      r == Success(ValidationResult(false, [NoRuleMessage(data.fieldName)]))
  {
    var errors: seq<string> := [];
    if data.fieldName == "email" {
      if !IsValidEmail(data.value) {
        errors := [InvalidEmailMessage];
      }
    } else if data.fieldName == "amount" {
      var parsed := parseFloat(data.value);
      if parsed.None? {
        return Failure(ValueError);
      }
      if !IsPositiveNumber(PyFloat(parsed.value)) {
        errors := [NotPositiveMessage];
      }
    } else {
      errors := [NoRuleMessage(data.fieldName)];
    }
    var isValid := |errors| == 0;
    r := Success(ValidationResult(isValid, errors));
  }

  /** `DataQualityIssue`, one per fetched row of `data_quality_issues`. */
  datatype DataQualityIssue = DataQualityIssue(id: int, issueType: string, description: string,
                                               detectedAt: string, resolved: bool)

  /** `DataQualityReport`. */
  datatype DataQualityReport = DataQualityReport(totalIssues: nat, unresolvedIssues: nat, issues: seq<DataQualityIssue>)

  /** `sum(1 for issue in issues if not issue.resolved)`. */
  function CountUnresolved(issues: seq<DataQualityIssue>): (n: nat)
    ensures n <= |issues|
  {
    if issues == [] then 0
    else (if issues[0].resolved then 0 else 1) + CountUnresolved(issues[1..])
  }

  /** Counting splits over a concatenation of row sets. */
  lemma {:induction false} CountUnresolvedAppend(a: seq<DataQualityIssue>, b: seq<DataQualityIssue>)
    ensures CountUnresolved(a + b) == CountUnresolved(a) + CountUnresolved(b)
  {
    if a == [] {
      assert a + b == b;
    } else {
      assert (a + b)[1..] == a[1..] + b;
      CountUnresolvedAppend(a[1..], b);
    }
  }

  /** No issue is unresolved iff every issue is resolved; all are iff none
      is. */
  lemma {:induction false} CountUnresolvedBounds(issues: seq<DataQualityIssue>)
    ensures CountUnresolved(issues) == 0 <==> forall k :: 0 <= k < |issues| ==> issues[k].resolved
    ensures CountUnresolved(issues) == |issues| <==> forall k :: 0 <= k < |issues| ==> !issues[k].resolved
  {
    if issues != [] {
      CountUnresolvedBounds(issues[1..]);
      assert forall k :: 1 <= k < |issues| ==> issues[k] == issues[1..][k - 1];
    }
  }

  /** `generate_data_quality_report` as intended: the fetched issues, in
      their order, with each `detected_at` already in text form. */
  function GenerateDataQualityReport(rows: seq<DataQualityIssue>): (report: DataQualityReport)
    ensures report.issues == rows
    ensures report.totalIssues == |rows|
    ensures report.unresolvedIssues <= report.totalIssues
    ensures report.unresolvedIssues == 0 <==> forall k :: 0 <= k < |rows| ==> rows[k].resolved
  {
    CountUnresolvedBounds(rows);
    DataQualityReport(|rows|, CountUnresolved(rows), rows)
  }

  /** Two issues, one of them unresolved, give 2 and 1. */
  lemma ReportExample()
    ensures GenerateDataQualityReport([
      DataQualityIssue(1, "Missing Data", "Email is missing", "2021-01-01T00:00:00", false),
      DataQualityIssue(2, "Invalid Format", "Invalid email format", "2021-01-02T00:00:00", true)
    ]).totalIssues == 2
    ensures GenerateDataQualityReport([
      DataQualityIssue(1, "Missing Data", "Email is missing", "2021-01-01T00:00:00", false),
      DataQualityIssue(2, "Invalid Format", "Invalid email format", "2021-01-02T00:00:00", true)
    ]).unresolvedIssues == 1
  {
  }

  /** The `detected_at` value of a fetched row. The `TIMESTAMP` column of
      `data_quality_issues` reaches Python as a `datetime` or as NULL; text
      appears only where the caller supplies rows of its own. */
  datatype FetchedStamp = StampText(text: string) | StampValue(at: Timestamp) | StampNull

  /** A row of `SELECT id, issue_type, description, detected_at, resolved`,
      with the nullable columns as options. */
  datatype IssueRow = IssueRow(id: int, issueType: string, description: Option<string>,
                               detectedAt: FetchedStamp, resolved: Option<bool>)

  /** The row as the table's own columns produce it: `detected_at` is a
      timestamp or NULL, never text. */
  predicate FromTable(row: IssueRow) {
    !row.detectedAt.StampText?
  }

  /** The pydantic `DataQualityIssue` accepts the row: `description` and
      `detected_at` must be `str` and `resolved` a `bool`. Neither a
      `datetime` nor None is a `str`. */
  predicate Accepted(row: IssueRow) {
    row.description.Some? && row.detectedAt.StampText? && row.resolved.Some?
  }

  /** The issue an accepted row becomes. */
  function IssueOf(row: IssueRow): DataQualityIssue
    requires Accepted(row)
  {
    DataQualityIssue(row.id, row.issueType, row.description.value, row.detectedAt.text, row.resolved.value)
  }

  /** The list comprehension building one `DataQualityIssue` per row; the
      first rejected row raises ValidationError. */
  function IssuesOf(rows: seq<IssueRow>): (r: Result<seq<DataQualityIssue>>)
    ensures r.Success? <==> forall k :: 0 <= k < |rows| ==> Accepted(rows[k])
    ensures r.Failure? ==> r.error == ValidationError("DataQualityIssue")
    ensures r.Success? ==> |r.value| == |rows| && forall k :: 0 <= k < |rows| ==> r.value[k] == IssueOf(rows[k])
  {
    if rows == [] then Success([])
    else if !Accepted(rows[0]) then Failure(ValidationError("DataQualityIssue"))
    else
      var rest := IssuesOf(rows[1..]);
      assert forall k :: 1 <= k < |rows| ==> rows[k] == rows[1..][k - 1];
      if rest.Failure? then rest
      else Success([IssueOf(rows[0])] + rest.value)
  }

  /** `generate_data_quality_report` as written: the rows as fetched go
      through the pydantic schema, which rejects every row the table itself
      produces, so the report raises for any non-empty table; only rows with
      text timestamps, such as the service tests' mocked ones, give a
      report. */
  function GenerateDataQualityReportAsWritten(rows: seq<IssueRow>): (r: Result<DataQualityReport>)
    ensures (forall k :: 0 <= k < |rows| ==> FromTable(rows[k])) ==> (r.Failure? <==> rows != [])
    ensures r.Failure? ==> r.error == ValidationError("DataQualityIssue")
    ensures r.Success? <==> forall k :: 0 <= k < |rows| ==> Accepted(rows[k])
    ensures r.Success? ==> r.value == GenerateDataQualityReport(r.value.issues)
    ensures r.Success? ==> |r.value.issues| == |rows|
    ensures r.Success? ==> forall k :: 0 <= k < |rows| ==> r.value.issues[k] == IssueOf(rows[k])
  {
    var issues := IssuesOf(rows);
    if issues.Failure? then Failure(issues.error)
    else Success(GenerateDataQualityReport(issues.value))
  }

  /** One issue as the table stores it raises ValidationError, where the
      intended report counts 1 issue, unresolved. */
  lemma DetectedAtValidationError(at: Timestamp)
    ensures GenerateDataQualityReportAsWritten([
      IssueRow(1, "Missing Data", Some("Email is missing"), StampValue(at), Some(false))
    ]) == Failure(ValidationError("DataQualityIssue"))
    ensures var report := GenerateDataQualityReport([
      DataQualityIssue(1, "Missing Data", "Email is missing", "2021-01-01T00:00:00", false)
    ]);
      report.totalIssues == 1 && report.unresolvedIssues == 1
  {
    var row := IssueRow(1, "Missing Data", Some("Email is missing"), StampValue(at), Some(false));
    assert !Accepted([row][0]);
  }

  /** The service tests' mocked rows carry text timestamps, so they pass
      the schema and give 2 issues, 1 unresolved. */
  lemma MockedRowsAccepted()
    ensures var r := GenerateDataQualityReportAsWritten([
      IssueRow(1, "Missing Data", Some("Email is missing"), StampText("2021-01-01T00:00:00"), Some(false)),
      IssueRow(2, "Invalid Format", Some("Invalid email format"), StampText("2021-01-02T00:00:00"), Some(true))
    ]);
      r.Success? && r.value.totalIssues == 2 && r.value.unresolvedIssues == 1
  {
    var rows := [
      IssueRow(1, "Missing Data", Some("Email is missing"), StampText("2021-01-01T00:00:00"), Some(false)),
      IssueRow(2, "Invalid Format", Some("Invalid email format"), StampText("2021-01-02T00:00:00"), Some(true))
    ];
    assert Accepted(rows[0]) && Accepted(rows[1]);
    var r := GenerateDataQualityReportAsWritten(rows);
    assert r.value.issues == [IssueOf(rows[0]), IssueOf(rows[1])];
    ReportExample();
  }
}
