/** The handler of pages/api/save-report.js: it stores a finished test and its report.
    It first resolves the internal user id: the body's `userId`, else the `users` row whose
    `ext_id` is the signed-in user's id, else a freshly inserted `users` row. Then it inserts
    the test row and, once that succeeded, the report row pointing at it. The outcomes of the
    four database calls are inputs; the reply records which rows the handler asked to
    insert. */
module SaveReport {
  import opened Wrappers
  import opened JsonValue
  import opened Db

  /** What the handler did and answered. `lookedUp` says whether it queried `users`; the
      three row fields hold the rows it handed to an insert (whether or not the insert then
      succeeded); `userId`, `testId` and `reportId` are the ids it resolved or got back. */
  datatype SaveReply = SaveReply(
    status: nat, error: string, lookedUp: bool,
    mapping: Option<Row>, testRow: Option<Row>, reportRow: Option<Row>,
    userId: Json, testId: Json, reportId: Json)

  const MethodNotAllowed := "Method not allowed"
  const MissingFields := "Missing required fields: supabaseUserId, test, report"
  const LookupFailed := "Failed to lookup user"
  const MappingFailed := "Failed to create user mapping"
  const Unresolved := "Unable to resolve user id"
  const TestFailed := "Failed to save test metadata"
  const ReportFailed := "Failed to save report"
  const ServerError := "Server error"

  /** The `users` row created for a signed-in user who has none. */
  function UserMapping(supabaseUserId: Json): (r: Row)
    ensures r.Keys == {"ext_id", "email"}
    ensures r["ext_id"] == supabaseUserId && r["email"] == JNull
  {
    map["ext_id" := supabaseUserId, "email" := JNull]
  }

  /** The number of questions stored with a test: the given `num_questions` unless it is
      null or missing, else the length of `questions` when that is a list, else null. */
  function QuestionCount(test: Json): (r: Json)
    ensures !Nullish(Field(test, "num_questions")) ==> r == Field(test, "num_questions").value
    ensures Nullish(Field(test, "num_questions")) && IsArray(Field(test, "questions"))
            ==> r == JNum(|Field(test, "questions").value.items|)
    ensures Nullish(Field(test, "num_questions")) && !IsArray(Field(test, "questions")) ==> r == JNull
  {
    var given := Field(test, "num_questions");
    if !Nullish(given) then given.value
    else
      var questions := Field(test, "questions");
      if IsArray(questions) then JNum(|questions.value.items|) else JNull
  }

  /** The `tests` row. */
  function TestPayload(userId: Json, uploadId: Option<Json>, test: Json): (r: Row)
    ensures r.Keys == {"user_id", "source_upload_id", "type", "num_questions"}
    ensures r["user_id"] == userId
    ensures r["source_upload_id"] == OrNull(uploadId)
    ensures Present(Field(test, "type")) ==> r["type"] == Field(test, "type").value
    ensures !Present(Field(test, "type")) ==> r["type"] == JNull
    ensures r["num_questions"] == QuestionCount(test)
  {
    map["user_id" := userId,
        "source_upload_id" := OrNull(uploadId),
        "type" := if Present(Field(test, "type")) then Field(test, "type").value else JNull,
        "num_questions" := QuestionCount(test)]
  }

  /** `Array.isArray(v) ? v : null`. */
  function ListOrNull(v: Option<Json>): (r: Json)
    ensures r == JNull || r.JArr?
    ensures IsArray(v) <==> r.JArr?
    ensures IsArray(v) ==> r == v.value
  {
    if IsArray(v) then v.value else JNull
  }

  /** The `reports` row: it points at the test row by `testId`; missing counts are stored as
      null, and the topic and explanation lists only when they are lists. */
  function ReportPayload(testId: Json, report: Json): (r: Row)
    ensures r.Keys == {"test_id", "total_questions", "attempted", "correct", "wrong", "weak_topics", "ai_explanations"}
    ensures r["test_id"] == testId
    ensures r["total_questions"] == OrNull(Field(report, "totalQuestions"))
    ensures r["attempted"] == OrNull(Field(report, "attempted"))
    ensures r["correct"] == OrNull(Field(report, "attemptedCorrect"))
    ensures r["wrong"] == OrNull(Field(report, "attemptedWrong"))
    ensures r["weak_topics"] == ListOrNull(Field(report, "weakTopics"))
    ensures r["ai_explanations"] == ListOrNull(Field(report, "explanations"))
  {
    map["test_id" := testId,
        "total_questions" := OrNull(Field(report, "totalQuestions")),
        "attempted" := OrNull(Field(report, "attempted")),
        "correct" := OrNull(Field(report, "attemptedCorrect")),
        "wrong" := OrNull(Field(report, "attemptedWrong")),
        "weak_topics" := ListOrNull(Field(report, "weakTopics")),
        "ai_explanations" := ListOrNull(Field(report, "explanations"))]
  }

  function Failure(status: nat, error: string, lookedUp: bool, mapping: Option<Row>): SaveReply {
    SaveReply(status, error, lookedUp, mapping, None, None, JNull, JNull, JNull)
  }

  /** Steps 2 and 3, once the user id is settled: refuse an unresolved (falsy) id, insert the
      test row, and only after that insert answered without error insert the report row. */
  function Store(userId: Json, body: Option<Json>, lookedUp: bool, mapping: Option<Row>,
                 testInsert: Query, reportInsert: Query): (r: SaveReply)
    requires Present(FieldOpt(body, "test")) && Present(FieldOpt(body, "report"))
    ensures r.lookedUp == lookedUp && r.mapping == mapping
    ensures !Truthy(userId) ==> r == Failure(500, Unresolved, lookedUp, mapping)
    ensures Truthy(userId) ==>
              r.testRow == Some(TestPayload(userId, FieldOpt(body, "generatedFromUploadId"), FieldOpt(body, "test").value))
    ensures r.reportRow.Some? <==> Truthy(userId) && (testInsert.NoData? || testInsert.Data?)
    ensures r.reportRow.Some? ==> r.reportRow == Some(ReportPayload(InsertedId(testInsert), FieldOpt(body, "report").value))
    ensures r.status == 200 <==>
              Truthy(userId) && (testInsert.NoData? || testInsert.Data?) && (reportInsert.NoData? || reportInsert.Data?)
    ensures r.status == 200 ==> r.userId == userId && r.testId == InsertedId(testInsert) && r.reportId == InsertedId(reportInsert)
    ensures r.status != 200 ==> r.status == 500
    ensures r.error == Unresolved <==> !Truthy(userId)
  {
    if !Truthy(userId) then Failure(500, Unresolved, lookedUp, mapping)
    else
      var testRow := TestPayload(userId, FieldOpt(body, "generatedFromUploadId"), FieldOpt(body, "test").value);
      match testInsert
      case Raised(_) => SaveReply(500, ServerError, lookedUp, mapping, Some(testRow), None, JNull, JNull, JNull)
      case DbError(_) => SaveReply(500, TestFailed, lookedUp, mapping, Some(testRow), None, JNull, JNull, JNull)
      case _ =>
        var testId := InsertedId(testInsert);
        var reportRow := ReportPayload(testId, FieldOpt(body, "report").value);
        match reportInsert
        case Raised(_) => SaveReply(500, ServerError, lookedUp, mapping, Some(testRow), Some(reportRow), JNull, JNull, JNull)
        case DbError(_) => SaveReply(500, ReportFailed, lookedUp, mapping, Some(testRow), Some(reportRow), JNull, JNull, JNull)
        case _ => SaveReply(200, "", lookedUp, mapping, Some(testRow), Some(reportRow), userId, testId, InsertedId(reportInsert))
  }

  /** The path where no `users` row exists yet: insert one for the signed-in user and take
      the id it hands back. */
  function WithNewUser(supabaseUserId: Json, body: Option<Json>, mappingInsert: Query,
                       testInsert: Query, reportInsert: Query): (r: SaveReply)
    requires Present(FieldOpt(body, "test")) && Present(FieldOpt(body, "report"))
    ensures r.lookedUp && r.mapping == Some(UserMapping(supabaseUserId))
    ensures r.testRow.Some? ==> mappingInsert.NoData? || mappingInsert.Data?
    ensures r.error == Unresolved ==> r.testRow.None? && r.reportRow.None?
  {
    var mapping := UserMapping(supabaseUserId);
    match mappingInsert
    case Raised(_) => Failure(500, ServerError, true, Some(mapping))
    case DbError(_) => Failure(500, MappingFailed, true, Some(mapping))
    case _ => Store(InsertedId(mappingInsert), body, true, Some(mapping), testInsert, reportInsert)
  }

  /** The handler. `lookup` answers the `users` select by `ext_id`, `mappingInsert` the
      insert of a new `users` row, `testInsert` and `reportInsert` the two row inserts. */
  function Handle(httpMethod: string, body: Option<Json>, lookup: Query, mappingInsert: Query,
                  testInsert: Query, reportInsert: Query): (r: SaveReply)
    ensures httpMethod != "POST" ==> r == Failure(405, MethodNotAllowed, false, None)
    ensures httpMethod == "POST" && !(Present(FieldOpt(body, "supabaseUserId")) && Present(FieldOpt(body, "test"))
                                      && Present(FieldOpt(body, "report")))
            ==> r == Failure(400, MissingFields, false, None)
    ensures r.testRow.Some? ==> "user_id" in r.testRow.value
    ensures r.reportRow.Some? ==> "test_id" in r.reportRow.value
    // a body `userId` is used as it is: no lookup and no new users row
    ensures Truthy(OrNull(FieldOpt(body, "userId"))) ==> !r.lookedUp && r.mapping.None?
    ensures Truthy(OrNull(FieldOpt(body, "userId"))) && r.testRow.Some? ==>
              r.testRow.value["user_id"] == OrNull(FieldOpt(body, "userId"))
    // otherwise the existing users row wins
    ensures r.lookedUp && FirstRow(lookup).Some? && r.testRow.Some? ==>
              r.mapping.None? && r.testRow.value["user_id"] == OrNull(Col(FirstRow(lookup).value, "id"))
    // and a users row is created only when the lookup answered without error and found none
    ensures r.mapping.Some? ==>
              r.lookedUp && (lookup.NoData? || lookup == Data([]))
              && r.mapping == Some(UserMapping(FieldOpt(body, "supabaseUserId").value))
    ensures r.mapping.Some? && r.testRow.Some? ==> r.testRow.value["user_id"] == InsertedId(mappingInsert)
    // an unresolved user stops everything: nothing reaches tests or reports
    ensures r.error == Unresolved ==> r.status == 500 && r.testRow.None? && r.reportRow.None?
    ensures r.testRow.Some? ==> Truthy(r.testRow.value["user_id"])
    // the report row is written only after the test row went in, and points at it
    ensures r.reportRow.Some? ==>
              r.testRow.Some? && (testInsert.NoData? || testInsert.Data?)
              && r.reportRow.value["test_id"] == InsertedId(testInsert)
    ensures r.status == 200 ==>
              r.testRow.Some? && r.reportRow.Some? && r.testId == InsertedId(testInsert)
              && r.reportId == InsertedId(reportInsert) && r.userId == r.testRow.value["user_id"]
    ensures r.status in {200, 400, 405, 500}
  {
    if httpMethod != "POST" then Failure(405, MethodNotAllowed, false, None)
    else
      var supabaseUserId := FieldOpt(body, "supabaseUserId");
      if !Present(supabaseUserId) || !Present(FieldOpt(body, "test")) || !Present(FieldOpt(body, "report")) then
        Failure(400, MissingFields, false, None)
      else
        var given := OrNull(FieldOpt(body, "userId"));
        if Truthy(given) then Store(given, body, false, None, testInsert, reportInsert)
        else match lookup
          case Raised(_) => Failure(500, ServerError, true, None)
          case DbError(_) => Failure(500, LookupFailed, true, None)
          case NoData => WithNewUser(supabaseUserId.value, body, mappingInsert, testInsert, reportInsert)
          case Data(rows) =>
            if rows != [] then Store(OrNull(Col(rows[0], "id")), body, true, None, testInsert, reportInsert)
            else WithNewUser(supabaseUserId.value, body, mappingInsert, testInsert, reportInsert)
  }

  /** Once the user id is given in the body, the `users` table plays no part: the reply is
      the same whatever the lookup and the mapping insert would have answered. */
  lemma GivenUserIgnoresUsersTable(body: Json, lookup1: Query, lookup2: Query, mapping1: Query, mapping2: Query,
                                   testInsert: Query, reportInsert: Query)
    requires Truthy(OrNull(Field(body, "userId")))
    ensures Handle("POST", Some(body), lookup1, mapping1, testInsert, reportInsert)
            == Handle("POST", Some(body), lookup2, mapping2, testInsert, reportInsert)
  {
  }

  /** A test described only by its question list is stored with the number of questions. */
  lemma CountFromQuestions(questions: seq<Json>, kind: Json)
    ensures QuestionCount(JObj(map["type" := kind, "questions" := JArr(questions)])) == JNum(|questions|)
  {
    assert Field(JObj(map["type" := kind, "questions" := JArr(questions)]), "num_questions").None?;
  }
}
