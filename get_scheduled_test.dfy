/** The handler of pages/api/get-scheduled-test.js: it hands a scheduled test's questions to
    the signed-in user who owns it. It looks the test up by id, looks its owner up in
    `users`, and compares the owner's `ext_id` with the requesting user's id as strings. The
    two query outcomes are inputs; the owner query is a function of the test's `user_id`. */
module GetScheduledTest {
  import opened Wrappers
  import opened JsonValue
  import opened Strings
  import opened Db

  /** The replies: an error with its status, or the 200 reply with the test payload and
      the metadata columns (undefined where the row lacks the column). */
  datatype Reply =
    | Refused(status: nat, error: string)
    | Granted(test: Json, scheduledTestId: Option<Json>, testStatus: Option<Json>,
              scheduledFor: Option<Json>, createdAt: Option<Json>,
              ownerId: Option<Json>, ownerEmail: Option<Json>, ownerPhone: Option<Json>)

  const MethodNotAllowed := "Method not allowed"
  const MissingIds := "Missing scheduledTestId or supabaseUserId"
  const FetchFailed := "Failed to fetch scheduled test"
  const TestNotFound := "Scheduled test not found"
  const ResolveFailed := "Failed to resolve user"
  const OwnerNotFound := "Owner user not found for this scheduled test"
  const NotAuthorized := "Not authorized to view this scheduled test"
  const ServerError := "Server error"

  /** `String(owner.ext_id) === String(supabaseUserId)`. */
  predicate Owns(owner: Row, userId: Option<Json>) {
    OptToJsString(Col(owner, "ext_id")) == OptToJsString(userId)
  }

  /** The handler. `ownerQuery` answers the `users` lookup for a given `user_id`. */
  function Handle(httpMethod: string, body: Option<Json>, schedQuery: Query, ownerQuery: Option<Json> -> Query)
    : (r: Reply)
    ensures httpMethod != "POST" ==> r == Refused(405, MethodNotAllowed)
    ensures httpMethod == "POST" && !(Present(FieldOpt(body, "scheduledTestId")) && Present(FieldOpt(body, "supabaseUserId")))
            ==> r == Refused(400, MissingIds)
    ensures r.Refused? ==> r.status in {400, 403, 404, 405, 500}
    ensures r.Refused? && r.status == 404 ==>
              FirstRow(schedQuery).None? ||
              FirstRow(ownerQuery(Col(FirstRow(schedQuery).value, "user_id"))).None?
    ensures r == Refused(404, TestNotFound) <==>
              httpMethod == "POST" && Present(FieldOpt(body, "scheduledTestId")) && Present(FieldOpt(body, "supabaseUserId"))
              && (schedQuery.NoData? || schedQuery == Data([]))
    // the payload goes out only on the 200 reply, and only to the owner
    ensures r.Granted? <==>
              httpMethod == "POST" && Present(FieldOpt(body, "scheduledTestId")) && Present(FieldOpt(body, "supabaseUserId"))
              && FirstRow(schedQuery).Some?
              && FirstRow(ownerQuery(Col(FirstRow(schedQuery).value, "user_id"))).Some?
              && Owns(FirstRow(ownerQuery(Col(FirstRow(schedQuery).value, "user_id"))).value, FieldOpt(body, "supabaseUserId"))
    ensures r.Granted? ==>
              var sched := FirstRow(schedQuery).value;
              var owner := FirstRow(ownerQuery(Col(sched, "user_id"))).value;
              r.test == OrNull(Col(sched, "test_payload"))
              && r.scheduledTestId == Col(sched, "id") && r.testStatus == Col(sched, "status")
              && r.scheduledFor == Col(sched, "scheduled_for") && r.createdAt == Col(sched, "created_at")
              && r.ownerId == Col(owner, "id") && r.ownerEmail == Col(owner, "email") && r.ownerPhone == Col(owner, "phone")
  {
    if httpMethod != "POST" then Refused(405, MethodNotAllowed)
    else
      var testId := FieldOpt(body, "scheduledTestId");
      var userId := FieldOpt(body, "supabaseUserId");
      if !Present(testId) || !Present(userId) then Refused(400, MissingIds)
      else match schedQuery
        case Raised(_) => Refused(500, ServerError)
        case DbError(_) => Refused(500, FetchFailed)
        case NoData => Refused(404, TestNotFound)
        case Data(schedRows) =>
          if schedRows == [] then Refused(404, TestNotFound)
          else
            var sched := schedRows[0];
            match ownerQuery(Col(sched, "user_id"))
            case Raised(_) => Refused(500, ServerError)
            case DbError(_) => Refused(500, ResolveFailed)
            case NoData => Refused(404, OwnerNotFound)
            case Data(userRows) =>
              if userRows == [] then Refused(404, OwnerNotFound)
              else
                var owner := userRows[0];
                if !Owns(owner, userId) then Refused(403, NotAuthorized)
                else
                  Granted(OrNull(Col(sched, "test_payload")), Col(sched, "id"), Col(sched, "status"),
                          Col(sched, "scheduled_for"), Col(sched, "created_at"),
                          Col(owner, "id"), Col(owner, "email"), Col(owner, "phone"))
  }

  /** Two requesters whose ids read differently as strings never both receive the same
      scheduled test: at most one of them is its owner. */
  lemma PayloadToOneOwner(body1: Json, body2: Json, schedQuery: Query, ownerQuery: Option<Json> -> Query)
    requires OptToJsString(Field(body1, "supabaseUserId")) != OptToJsString(Field(body2, "supabaseUserId"))
    ensures !(Handle("POST", Some(body1), schedQuery, ownerQuery).Granted?
              && Handle("POST", Some(body2), schedQuery, ownerQuery).Granted?)
  {
  }

  /** An owner whose `ext_id` is stored as a number is still recognised when the request
      carries that number as a string, because both sides are compared through `String`. */
  lemma NumericOwnerMatchesString(n: int, testId: Json, sched: Row, owner: Row, ownerQuery: Option<Json> -> Query)
    requires Truthy(testId)
    requires owner == map["ext_id" := JNum(n)]
    requires ownerQuery(Col(sched, "user_id")) == Data([owner])
    ensures Handle("POST", Some(JObj(map["scheduledTestId" := testId, "supabaseUserId" := JStr(IntToString(n))])),
                   Data([sched]), ownerQuery).Granted?
  {
    var body := JObj(map["scheduledTestId" := testId, "supabaseUserId" := JStr(IntToString(n))]);
    assert FieldOpt(Some(body), "supabaseUserId") == Some(JStr(IntToString(n)));
    assert Owns(owner, Some(JStr(IntToString(n))));
  }
}
