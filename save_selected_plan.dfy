/** The handler of pages/api/save-selected-plan.js: it records a chosen plan as an active
    subscription. The user is the body's `user_id`, or else the user behind the bearer token
    of the `Authorization` header. `parse` stands for `JSON.parse`, `tokenUser` for the auth
    service's answer to a token (`None` when it errs, throws or has no user), and `insert`
    for the outcome of the subscription insert. */
module SaveSelectedPlan {
  import opened Wrappers
  import opened Strings
  import opened JsonValue
  import opened Db

  /** The reply, with what the handler did on the way: the token it looked up, if any, and
      the row it handed to the insert, if any. `saved` is the 200 reply's `saved` value. */
  datatype PlanReply = PlanReply(status: nat, error: string, token: Option<string>, inserted: Option<Row>, saved: Json)

  const MethodNotAllowed := "Method not allowed"
  const InvalidJson := "Invalid JSON body"
  const MissingPlan := "Missing plan in request body"
  const MissingUser := "Missing user_id (supply user_id in body or Authorization Bearer token)"
  const InsertFallback := "Failed to save subscription (see server logs)"
  const InternalError := "Internal server error"
  const BearerPrefix := "Bearer "

  /** The body after the string case: a string body is parsed (`None` when it does not
      parse), anything else is taken as it is. */
  function BodyOf(rawBody: Option<Json>, parse: string -> Option<Json>): (r: Option<Option<Json>>)
    ensures !(rawBody.Some? && rawBody.value.JStr?) ==> r == Some(rawBody)
    ensures rawBody.Some? && rawBody.value.JStr? ==>
              (r.None? <==> parse(rawBody.value.s).None?) && (r.Some? ==> r.value == parse(rawBody.value.s))
  {
    if rawBody.Some? && rawBody.value.JStr? then
      match parse(rawBody.value.s)
      case None => None
      case Some(v) => Some(Some(v))
    else Some(rawBody)
  }

  /** `(headers.authorization || headers.Authorization || "").toString()`. */
  function AuthHeader(authorization: Option<Json>, authorizationAlt: Option<Json>): string {
    if Present(authorization) then ToJsString(authorization.value)
    else if Present(authorizationAlt) then ToJsString(authorizationAlt.value)
    else ""
  }

  /** `header.split(" ")[1]`; a header without a second part gives "" here (the source would
      pass `undefined`, which cannot happen after the "Bearer " test). */
  function SecondWord(header: string): string {
    var parts := SplitOn(header, ' ');
    if |parts| >= 2 then parts[1] else []
  }

  /** The subscription row. */
  function SubscriptionRow(userId: Json, plan: Json, nowIso: string): (r: Row)
    ensures r.Keys == {"user_id", "plan", "status", "activated_at"}
    ensures r["user_id"] == userId && r["plan"] == plan
    ensures r["status"] == JStr("active") && r["activated_at"] == JStr(nowIso)
  {
    map["user_id" := userId, "plan" := plan, "status" := JStr("active"), "activated_at" := JStr(nowIso)]
  }

  /** The bearer token the handler looks up, if it looks one up: only when the body names no
      (truthy) user and the header starts with "Bearer ". */
  function TokenToCheck(bodyUser: Json, header: string): (r: Option<string>)
    ensures r.Some? <==> !Truthy(bodyUser) && StartsWith(header, BearerPrefix)
  {
    if !Truthy(bodyUser) && StartsWith(header, BearerPrefix) then Some(SecondWord(header)) else None
  }

  /** The handler. */
  function Handle(httpMethod: string, rawBody: Option<Json>, authorization: Option<Json>, authorizationAlt: Option<Json>,
                  parse: string -> Option<Json>, tokenUser: string -> Option<Json>, insert: Query, nowIso: string)
    : (r: PlanReply)
    ensures httpMethod != "POST" ==> r == PlanReply(405, MethodNotAllowed, None, None, JNull)
    ensures httpMethod == "POST" && BodyOf(rawBody, parse).None? ==> r == PlanReply(400, InvalidJson, None, None, JNull)
    // the plan is checked before anything is done about the user
    ensures httpMethod == "POST" && BodyOf(rawBody, parse).Some? && !Present(FieldOpt(BodyOf(rawBody, parse).value, "plan"))
            ==> r == PlanReply(400, MissingPlan, None, None, JNull)
    ensures r.token.Some? ==>
              var body := BodyOf(rawBody, parse).value;
              !Truthy(OrNull(FieldOpt(body, "user_id"))) && StartsWith(AuthHeader(authorization, authorizationAlt), BearerPrefix)
              && r.token.value == SecondWord(AuthHeader(authorization, authorizationAlt))
    ensures r.inserted.Some? ==> "user_id" in r.inserted.value
    ensures r.inserted.Some? ==>
              var body := BodyOf(rawBody, parse).value;
              var bodyUser := OrNull(FieldOpt(body, "user_id"));
              httpMethod == "POST" && Present(FieldOpt(body, "plan"))
              && r.inserted.value == SubscriptionRow(r.inserted.value["user_id"], FieldOpt(body, "plan").value, nowIso)
              && Truthy(r.inserted.value["user_id"])
              // a body user wins; otherwise the user comes from the token
              && (Truthy(bodyUser) ==> r.token.None? && r.inserted.value["user_id"] == bodyUser)
              && (!Truthy(bodyUser) ==> r.token.Some? && tokenUser(r.token.value) == Some(r.inserted.value["user_id"]))
    ensures (httpMethod == "POST" && BodyOf(rawBody, parse).Some? && Present(FieldOpt(BodyOf(rawBody, parse).value, "plan"))
             && r.inserted.None?) ==> r.status == 400 && r.error == MissingUser
    ensures r.status == 200 <==> r.inserted.Some? && (insert.NoData? || insert.Data?)
    ensures r.status == 200 ==> r.saved == (if FirstRow(insert).Some? then JObj(FirstRow(insert).value) else JNull)
    ensures r.status in {200, 400, 405, 500}
  {
    if httpMethod != "POST" then PlanReply(405, MethodNotAllowed, None, None, JNull)
    else match BodyOf(rawBody, parse)
      case None => PlanReply(400, InvalidJson, None, None, JNull)
      case Some(body) =>
        var plan := FieldOpt(body, "plan");
        if !Present(plan) then PlanReply(400, MissingPlan, None, None, JNull)
        else
          var bodyUser := OrNull(FieldOpt(body, "user_id"));
          var token := TokenToCheck(bodyUser, AuthHeader(authorization, authorizationAlt));
          var userId := if token.Some? && Present(tokenUser(token.value)) then tokenUser(token.value).value else bodyUser;
          if !Truthy(userId) then PlanReply(400, MissingUser, token, None, JNull)
          else
            var row := SubscriptionRow(userId, plan.value, nowIso);
            match insert
            case Raised(m) => PlanReply(500, if m != [] then m else InternalError, token, Some(row), JNull)
            case DbError(m) => PlanReply(500, if m != [] then m else InsertFallback, token, Some(row), JNull)
            case NoData => PlanReply(200, "", token, Some(row), JNull)
            case Data(rows) => PlanReply(200, "", token, Some(row), if rows != [] then JObj(rows[0]) else JNull)
  }

  /** A header built as "Bearer " followed by a token without spaces hands back that very
      token. */
  lemma BearerToken(token: string)
    requires ' ' !in token
    ensures StartsWith(BearerPrefix + token, BearerPrefix)
    ensures SecondWord(BearerPrefix + token) == token
  {
    var parts := ["Bearer", token];
    assert JoinWith(parts, ' ') == BearerPrefix + token by {
      assert JoinWith(parts[1..], ' ') == token;
    }
    forall k | 0 <= k < |parts| ensures ' ' !in parts[k] {
      if k == 0 {
        assert parts[0] == ['B', 'e', 'a', 'r', 'e', 'r'];
      }
    }
    SplitJoin(parts, ' ');
    assert (BearerPrefix + token)[..|BearerPrefix|] == BearerPrefix;
  }

  /** A body that names no user, sent with a "Bearer" header whose token names one: the
      handler looks that token up and subscribes its user to the body's plan. */
  lemma UserFromToken(body: Json, token: string, parse: string -> Option<Json>, tokenUser: string -> Option<Json>,
                      insert: Query, nowIso: string)
    requires body.JObj? && Field(body, "user_id").None? && Present(Field(body, "plan"))
    requires ' ' !in token && Present(tokenUser(token))
    ensures var r := Handle("POST", Some(body), Some(JStr(BearerPrefix + token)), None, parse, tokenUser, insert, nowIso);
            r.token == Some(token) && r.inserted == Some(SubscriptionRow(tokenUser(token).value, Field(body, "plan").value, nowIso))
  {
    BearerToken(token);
    assert BodyOf(Some(body), parse) == Some(Some(body));
    assert AuthHeader(Some(JStr(BearerPrefix + token)), None) == BearerPrefix + token;
    assert TokenToCheck(JNull, BearerPrefix + token) == Some(token);
  }
}
