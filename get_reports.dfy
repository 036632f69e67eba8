/** The handler of pages/api/get-reports.js: it lists a signed-in user's reports. It finds
    the internal user id by `ext_id`, fetches every row of `reports` newest first, and keeps
    some of them. As written it keeps a report when its `user_id` is the user's id OR when it
    has any `test_id`; the rows written by pages/api/save-report.js carry a `test_id` and no
    `user_id`, so every user is shown every other user's reports. `OwnOnly` is the filter the
    handler evidently meant: a report is kept when it, or the test it points at, belongs to
    the user. */
module GetReports {
  import opened Wrappers
  import opened JsonValue
  import opened Db
  import SaveReport

  datatype Reply = Refused(status: nat, error: string) | Reports(reports: seq<Row>)

  /** Which filter the handler applies. `OwnOnly` consults the owner of a test: `testOwner(id)`
      is the `user_id` of the `tests` row with that id, if there is one. */
  datatype Filtering = AsWritten | OwnOnly(testOwner: Json -> Option<Json>)

  const MethodNotAllowed := "Method not allowed"
  const MissingUser := "Missing supabaseUserId"
  const LookupFailed := "Failed to lookup user"
  const FetchFailed := "Failed to fetch reports"
  const ServerError := "Server error"

  /** Whether report `r` is kept for the internal user id `userId`. */
  predicate Keeps(f: Filtering, userId: Option<Json>, r: Row) {
    match f
    case AsWritten => StrictEq(Col(r, "user_id"), userId) || Present(Col(r, "test_id"))
    case OwnOnly(testOwner) =>
      Present(userId)
      && (StrictEq(Col(r, "user_id"), userId)
          || (Present(Col(r, "test_id")) && StrictEq(testOwner(Col(r, "test_id").value), userId)))
  }

  /** `a` is `b` with some elements left out, the rest in their order. */
  predicate Subsequence(a: seq<Row>, b: seq<Row>)
    decreases |b|
  {
    a == [] || (b != [] && ((a[0] == b[0] && Subsequence(a[1..], b[1..])) || Subsequence(a, b[1..])))
  }

  /** `rows.filter(...)`: the kept rows, in their order. */
  function Filter(rows: seq<Row>, f: Filtering, userId: Option<Json>): (r: seq<Row>)
    ensures Subsequence(r, rows)
    ensures forall x :: x in r <==> x in rows && Keeps(f, userId, x)
    decreases |rows|
  {
    if rows == [] then []
    else
      var rest := Filter(rows[1..], f, userId);
      assert rows == [rows[0]] + rows[1..];
      if Keeps(f, userId, rows[0]) then
        assert ([rows[0]] + rest)[1..] == rest;
        [rows[0]] + rest
      else rest
  }

  /** The handler, with the filter as a parameter. `users` answers the lookup by `ext_id`,
      `reports` the fetch of all reports. */
  function Handle(httpMethod: string, body: Option<Json>, users: Query, reports: Query, f: Filtering): (r: Reply)
    ensures httpMethod != "POST" ==> r == Refused(405, MethodNotAllowed)
    ensures httpMethod == "POST" && !Present(FieldOpt(body, "supabaseUserId")) ==> r == Refused(400, MissingUser)
    ensures r.Refused? ==> r.status in {400, 405, 500}
    // an unknown user gets an empty list, not an error
    ensures httpMethod == "POST" && Present(FieldOpt(body, "supabaseUserId")) && (users.NoData? || users == Data([]))
            ==> r == Reports([])
    ensures r.Reports? && FirstRow(users).Some? ==>
              reports.Data? && Subsequence(r.reports, reports.rows)
              && forall x :: x in r.reports <==> x in reports.rows && Keeps(f, Col(FirstRow(users).value, "id"), x)
    ensures r.Reports? && r.reports != [] ==> FirstRow(users).Some?
    // a known user whose reports were fetched gets exactly the filter's result
    ensures httpMethod == "POST" && Present(FieldOpt(body, "supabaseUserId")) && FirstRow(users).Some? && reports.Data? ==>
              r == Reports(Filter(reports.rows, f, Col(FirstRow(users).value, "id")))
    ensures httpMethod == "POST" && Present(FieldOpt(body, "supabaseUserId")) && FirstRow(users).Some? && reports.DbError? ==>
              r == Refused(500, FetchFailed)
    ensures httpMethod == "POST" && Present(FieldOpt(body, "supabaseUserId")) && FirstRow(users).Some? && (reports.Raised? || reports.NoData?) ==>
              r == Refused(500, ServerError)
  {
    if httpMethod != "POST" then Refused(405, MethodNotAllowed)
    else if !Present(FieldOpt(body, "supabaseUserId")) then Refused(400, MissingUser)
    else match users
      case Raised(_) => Refused(500, ServerError)
      case DbError(_) => Refused(500, LookupFailed)
      case NoData => Reports([])
      case Data(userRows) =>
        if userRows == [] then Reports([])
        else
          var userId := Col(userRows[0], "id");
          match reports
          case Raised(_) => Refused(500, ServerError)
          case DbError(_) => Refused(500, FetchFailed)
          case NoData => Refused(500, ServerError)
          case Data(rows) => Reports(Filter(rows, f, userId))
  }

  /** As written, every fetched report that names a test is returned to every user whose
      lookup succeeds, whoever the report belongs to. */
  lemma LinkedReportsGoToEveryone(body: Json, users: Query, reports: seq<Row>, r: Row)
    requires Present(Field(body, "supabaseUserId")) && FirstRow(users).Some?
    requires r in reports && Present(Col(r, "test_id"))
    ensures r in Handle("POST", Some(body), users, Data(reports), AsWritten).reports
  {
  }

  /** The leak on one input: user `u1` asks for their reports, and the only report is one
      of `u2`'s, saved with its test id. As written `u1` receives it; the intended filter
      returns nothing. */
  lemma OtherUsersReportLeaks(testOwner: Json -> Option<Json>)
    requires testOwner(JStr("t2")) == Some(JStr("u2"))
    ensures var body := JObj(map["supabaseUserId" := JStr("auth-u1")]);
            var users := Data([map["id" := JStr("u1"), "ext_id" := JStr("auth-u1")]]);
            var theirs := map["test_id" := JStr("t2"), "correct" := JNum(3)];
            Handle("POST", Some(body), users, Data([theirs]), AsWritten) == Reports([theirs])
            && Handle("POST", Some(body), users, Data([theirs]), OwnOnly(testOwner)) == Reports([])
  {
    var theirs := map["test_id" := JStr("t2"), "correct" := JNum(3)];
    assert Col(theirs, "user_id").None? && Col(theirs, "test_id") == Some(JStr("t2"));
    assert Keeps(AsWritten, Some(JStr("u1")), theirs);
    assert !Keeps(OwnOnly(testOwner), Some(JStr("u1")), theirs);
  }

  /** With the intended filter a user receives exactly the fetched reports that are theirs,
      directly or through their test, in the fetched order. */
  lemma OwnOnlyReturnsOwnReports(body: Json, users: Query, reports: seq<Row>, testOwner: Json -> Option<Json>)
    requires Present(Field(body, "supabaseUserId")) && FirstRow(users).Some?
    ensures var userId := Col(FirstRow(users).value, "id");
            var r := Handle("POST", Some(body), users, Data(reports), OwnOnly(testOwner));
            r.Reports? && Subsequence(r.reports, reports)
            && forall x :: x in r.reports <==>
                 x in reports && Present(userId)
                 && (StrictEq(Col(x, "user_id"), userId)
                     || (Present(Col(x, "test_id")) && StrictEq(testOwner(Col(x, "test_id").value), userId)))
  {
  }

  /** A report row written by the save-report handler for a test that belongs to `userId`
      is listed for that user by the intended filter and by no user with another id; as
      written it is listed for everyone once its test id is truthy. */
  lemma SavedReportVisibility(testId: Json, report: Json, userId: Json, other: Json, testOwner: Json -> Option<Json>)
    requires Truthy(testId) && Truthy(userId) && !userId.JArr? && !userId.JObj?
    requires testOwner(testId) == Some(userId) && other != userId
    ensures var row := SaveReport.ReportPayload(testId, report);
            Keeps(OwnOnly(testOwner), Some(userId), row)
            && !Keeps(OwnOnly(testOwner), Some(other), row)
            && Keeps(AsWritten, Some(other), row)
  {
    var row := SaveReport.ReportPayload(testId, report);
    assert Col(row, "user_id").None?;
    assert Col(row, "test_id") == Some(testId);
  }
}
