/** The plan step of pages/setup-profile-step3.js: the table of plans, the selection and
    what "Complete" does with it. The current session (its access token), the answer to the
    sign-in prompt and the outcome of the save request are inputs. */
module PlanSelection {
  import opened Wrappers
  import opened Strings
  import opened JsonValue
  import SaveSelectedPlan
  import Db

  /** A plan as the table describes it (the feature lists, labels and colours are display
      only and are not part of the model). */
  datatype Plan = Plan(id: string, title: string, priceValue: int, recommended: bool)

  const Plans: seq<Plan> := [
    Plan("free", "Free Plan", 0, false),
    Plan("starter", "Starter", 299, false),
    Plan("career-counseling", "Career Counseling", 99, false),
    Plan("prime", "Prime", 399, true),
    Plan("elite", "Elite", 499, false)
  ]

  const DefaultPlan := "free"
  const NeedPlan := "Please select a plan."
  const FailurePrefix := "Failed saving plan: "
  const AuthRoute := "/auth"
  const GenerateRoute := "/generate"
  const CareerRoute := "/career-counseling?plan=career-counseling"
  const PaymentPrefix := "/payment?plan="

  /** The table's shape: five plans with distinct ids, and prime the only recommended one. */
  lemma PlansTable()
    ensures |Plans| == 5
    ensures forall i, j :: 0 <= i < j < |Plans| ==> Plans[i].id != Plans[j].id
    ensures forall i :: 0 <= i < |Plans| ==> (Plans[i].recommended <==> Plans[i].id == "prime")
    ensures forall i :: 0 <= i < |Plans| ==> Plans[i].priceValue >= 0
  {
  }

  /** `PLANS.find(p => p.id === id)`. */
  function FindPlan(id: string): (r: Option<Plan>)
    ensures r.Some? ==> r.value in Plans && r.value.id == id
    ensures r.None? <==> forall i :: 0 <= i < |Plans| ==> Plans[i].id != id
  {
    FindIn(Plans, id)
  }

  function FindIn(plans: seq<Plan>, id: string): (r: Option<Plan>)
    ensures r.Some? ==> r.value in plans && r.value.id == id
    ensures r.None? <==> forall i :: 0 <= i < |plans| ==> plans[i].id != id
    decreases |plans|
  {
    if plans == [] then None
    else if plans[0].id == id then Some(plans[0])
    else
      var r := FindIn(plans[1..], id);
      assert forall i :: 1 <= i < |plans| ==> plans[i] == plans[1..][i - 1];
      r
  }

  /** The price sent with the save request: the plan's `priceValue`, or null for an id
      the table does not have. */
  function PriceSent(id: string): (r: Json)
    ensures FindPlan(id).Some? ==> r == JNum(FindPlan(id).value.priceValue)
    ensures FindPlan(id).None? ==> r == JNull
  {
    match FindPlan(id)
    case Some(p) => JNum(p.priceValue)
    case None => JNull
  }

  /** The selection when the page opens: "free", unless local storage holds a non-empty
      choice. */
  function InitialSelection(stored: Option<string>): (r: string)
    ensures r != []
    ensures stored.Some? && stored.value != [] ==> r == stored.value
    ensures !(stored.Some? && stored.value != []) ==> r == DefaultPlan
  {
    if stored.Some? && stored.value != [] then stored.value else DefaultPlan
  }

  /** `encodeURIComponent`: letters, digits and `-_.!~*'()` stay; every other character is
      written as `%XX` escapes of its UTF-8 bytes, with upper-case hex digits. */
  predicate Unreserved(c: char) {
    ('A' <= c <= 'Z') || ('a' <= c <= 'z') || ('0' <= c <= '9')
    || c == '-' || c == '_' || c == '.' || c == '!' || c == '~' || c == '*' || c == '\'' || c == '(' || c == ')'
  }

  function HexDigit(d: nat): (c: char)
    requires d < 16
    ensures Unreserved(c)
  {
    if d < 10 then ('0' as int + d) as char else ('A' as int + d - 10) as char
  }

  /** The UTF-8 bytes of one character. */
  function Utf8(c: char): (r: seq<nat>)
    ensures 1 <= |r| <= 4
    ensures forall i :: 0 <= i < |r| ==> r[i] < 256
    ensures |r| == 1 <==> c as int < 0x80
  {
    var n := c as int;
    if n < 0x80 then [n]
    else if n < 0x800 then [0xC0 + n / 64, 0x80 + n % 64]
    else if n < 0x10000 then [0xE0 + n / 4096, 0x80 + (n / 64) % 64, 0x80 + n % 64]
    else [0xF0 + n / 262144, 0x80 + (n / 4096) % 64, 0x80 + (n / 64) % 64, 0x80 + n % 64]
  }

  function PercentBytes(bytes: seq<nat>): (r: string)
    requires forall i :: 0 <= i < |bytes| ==> bytes[i] < 256
    ensures |r| == 3 * |bytes|
    ensures forall i :: 0 <= i < |r| ==> Unreserved(r[i]) || r[i] == '%'
    decreases |bytes|
  {
    if bytes == [] then []
    else ['%', HexDigit(bytes[0] / 16), HexDigit(bytes[0] % 16)] + PercentBytes(bytes[1..])
  }

  function EncodeChar(c: char): (r: string)
    ensures r == [c] <==> Unreserved(c)
    ensures forall i :: 0 <= i < |r| ==> Unreserved(r[i]) || r[i] == '%'
  {
    if Unreserved(c) then [c] else PercentBytes(Utf8(c))
  }

  function EncodeUriComponent(s: string): (r: string)
    ensures |r| >= |s|
    // the result never holds `&`, `=`, `#`, `?` or `/`, so it stays one query value
    ensures forall i :: 0 <= i < |r| ==> Unreserved(r[i]) || r[i] == '%'
    decreases |s|
  {
    if s == [] then [] else EncodeChar(s[0]) + EncodeUriComponent(s[1..])
  }

  /** Text made only of unreserved characters goes into a URL unchanged. */
  lemma {:induction false} EncodeUnreserved(s: string)
    requires forall i :: 0 <= i < |s| ==> Unreserved(s[i])
    ensures EncodeUriComponent(s) == s
    decreases |s|
  {
    if s != [] {
      EncodeUnreserved(s[1..]);
      assert [s[0]] + s[1..] == s;
    }
  }

  /** Where "Complete" sends the user after a successful save. */
  function Route(id: string): (r: string)
    ensures id == DefaultPlan ==> r == GenerateRoute
    ensures id == "career-counseling" ==> r == CareerRoute
    ensures id != DefaultPlan && id != "career-counseling" ==> r == PaymentPrefix + EncodeUriComponent(id)
  {
    if id == DefaultPlan then GenerateRoute
    else if id == "career-counseling" then CareerRoute
    else PaymentPrefix + EncodeUriComponent(id)
  }

  /** Every plan of the table other than free and career counselling goes to the payment
      page with its id as the query value, unchanged. */
  lemma PaidPlansGoToPayment(i: nat)
    requires i < |Plans| && Plans[i].id != DefaultPlan && Plans[i].id != "career-counseling"
    ensures Route(Plans[i].id) == PaymentPrefix + Plans[i].id
  {
    var id := Plans[i].id;
    assert id == "starter" || id == "prime" || id == "elite";
    EncodeUnreserved(id);
  }

  /** The outcome of `persistPlanToServer`'s request: it threw, the reply was not JSON, or a
      JSON reply came back with its `ok` flag and status. */
  datatype SaveCall = SaveThrew(message: string) | NotJson(status: nat) | Replied(ok: bool, status: nat, json: Json)

  /** The request sent to the save endpoint: its JSON body and `Authorization` header. */
  datatype PlanRequest = PlanRequest(body: Json, authorization: string)

  /** What "Complete" did: the alert shown, the choice kept in local storage, the request
      sent and the route taken. */
  datatype CompleteOutcome = CompleteOutcome(alert: Option<string>, stored: Option<string>,
                                             request: Option<PlanRequest>, route: Option<string>)

  /** The request for a plan id from a session with the given access token. */
  function RequestFor(id: string, token: string): (r: PlanRequest)
    ensures r.authorization == "Bearer " + token
    ensures r.body == JObj(map["plan" := JStr(id), "priceValue" := PriceSent(id)])
  {
    PlanRequest(JObj(map["plan" := JStr(id), "priceValue" := PriceSent(id)]), "Bearer " + token)
  }

  /** The message of the error `persistPlanToServer` throws for a failed save. */
  function SaveError(save: SaveCall): string {
    match save
    case SaveThrew(m) => m
    case NotJson(status) => "Server returned non-JSON (status " + IntToString(status) + ")"
    case Replied(_, status, json) =>
      var e := Field(json, "error");
      if Present(e) then ToJsString(e.value) else "Save failed (status " + IntToString(status) + ")"
  }

  /** `handleComplete`. `session` is the access token of the signed-in session, if any. */
  function Complete(selected: string, session: Option<string>, confirmSignIn: bool, save: SaveCall): (r: CompleteOutcome)
    ensures selected == [] ==> r == CompleteOutcome(Some(NeedPlan), None, None, None)
    ensures selected != [] ==> r.stored == Some(selected)
    // nothing reaches the server without a session
    ensures session.None? && selected != [] ==> r.request.None? && r.alert.None? && (r.route.Some? <==> selected != [] && confirmSignIn)
    ensures session.None? && r.route.Some? ==> r.route.value == AuthRoute
    ensures r.request.Some? <==> selected != [] && session.Some?
    ensures r.request.Some? ==> r.request.value == RequestFor(selected, session.value)
    // a failed save stops the flow with an alert and no navigation
    ensures r.request.Some? && !(save.Replied? && save.ok) ==>
              r.route.None? && r.alert.Some? && StartsWith(r.alert.value, FailurePrefix)
    ensures r.request.Some? && !(save.Replied? && save.ok) ==>
              r.alert == Some(FailurePrefix + (if SaveError(save) != [] then SaveError(save) else "Unknown error"))
    ensures r.request.Some? && save.Replied? && save.ok ==> r.route == Some(Route(selected)) && r.alert.None?
  {
    if selected == [] then CompleteOutcome(Some(NeedPlan), None, None, None)
    else match session
      case None => CompleteOutcome(None, Some(selected), None, if confirmSignIn then Some(AuthRoute) else None)
      case Some(token) =>
        var request := RequestFor(selected, token);
        if save.Replied? && save.ok then CompleteOutcome(None, Some(selected), Some(request), Some(Route(selected)))
        else
          var message := SaveError(save);
          var alert := FailurePrefix + (if message != [] then message else "Unknown error");
          assert alert[..|FailurePrefix|] == FailurePrefix;
          CompleteOutcome(Some(alert), Some(selected), Some(request), None)
  }

  /** The page and the save endpoint agree: the request "Complete" sends for a session whose
      token has no spaces makes the endpoint look that token up and, when it names a user,
      insert an active subscription to the selected plan for that user. */
  lemma CompleteSavesThroughToken(selected: string, token: string, save: SaveCall,
                                  parse: string -> Option<Json>, tokenUser: string -> Option<Json>,
                                  insert: Db.Query, nowIso: string)
    requires selected != [] && ' ' !in token && Present(tokenUser(token))
    ensures var request := Complete(selected, Some(token), false, save).request.value;
            var reply := SaveSelectedPlan.Handle("POST", Some(request.body), Some(JStr(request.authorization)), None,
                                                 parse, tokenUser, insert, nowIso);
            reply.token == Some(token)
            && reply.inserted == Some(SaveSelectedPlan.SubscriptionRow(tokenUser(token).value, JStr(selected), nowIso))
  {
    var request := RequestFor(selected, token);
    assert Complete(selected, Some(token), false, save).request == Some(request);
    RequestNamesNoUser(selected, token);
    SaveSelectedPlan.UserFromToken(request.body, token, parse, tokenUser, insert, nowIso);
  }

  /** The request names the plan and no user, so the endpoint must use the token. */
  lemma RequestNamesNoUser(selected: string, token: string)
    ensures Field(RequestFor(selected, token).body, "user_id").None?
    ensures Field(RequestFor(selected, token).body, "plan") == Some(JStr(selected))
  {
    assert "user_id" !in RequestFor(selected, token).body.fields;
  }
}
