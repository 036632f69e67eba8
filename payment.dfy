/** The mock checkout of pages/payment.js: which plan is being bought, the price sent for
    it, and where a successful purchase leads. The signed-in user's id, the answer to the
    sign-in prompt and the reply of the save endpoint are inputs. */
module Payment {
  import opened Wrappers
  import opened Strings
  import opened JsonValue
  import SaveSelectedPlan
  import PlanSelection
  import Db

  /** `router.query.plan`: absent, one value, or a repeated parameter. */
  datatype QueryPlan = NoPlan | OnePlan(value: string) | ManyPlans(values: seq<string>)

  const FallbackPlan := "starter"

  /** The query value, taking the first of a repeated parameter. */
  function QueryValue(q: QueryPlan): Option<string> {
    match q
    case NoPlan => None
    case OnePlan(v) => Some(v)
    case ManyPlans(vs) => if vs != [] then Some(vs[0]) else None
  }

  /** The plan on the page: the (non-empty) query value, else the stored choice, else
      "starter". */
  function PlanOf(q: QueryPlan, stored: Option<string>): (r: string)
    ensures r != []
    ensures QueryValue(q).Some? && QueryValue(q).value != [] ==> r == QueryValue(q).value
    ensures !(QueryValue(q).Some? && QueryValue(q).value != []) && stored.Some? && stored.value != [] ==> r == stored.value
    ensures !(QueryValue(q).Some? && QueryValue(q).value != []) && !(stored.Some? && stored.value != []) ==> r == FallbackPlan
  {
    var qPlan := QueryValue(q);
    if qPlan.Some? && qPlan.value != [] then qPlan.value
    else if stored.Some? && stored.value != [] then stored.value
    else FallbackPlan
  }

  /** `priceValue`: 299 for starter, 399 for prime, 499 for anything else. */
  function PriceValue(plan: string): (r: int)
    ensures r == 299 <==> plan == "starter"
    ensures r == 399 <==> plan == "prime"
    ensures r == 499 <==> plan != "starter" && plan != "prime"
  {
    if plan == "starter" then 299 else if plan == "prime" then 399 else 499
  }

  /** Where a successful purchase leads. */
  function SuccessRoute(plan: string): (r: string)
    ensures plan == "starter" ==> r == "/starter-dashboard"
    ensures plan == "prime" ==> r == "/prime-dashboard"
    ensures plan == "ultimate" ==> r == "/ultimate-dashboard"
    ensures plan !in {"starter", "prime", "ultimate"} ==> r == "/generate"
  {
    if plan == "starter" then "/starter-dashboard"
    else if plan == "prime" then "/prime-dashboard"
    else if plan == "ultimate" then "/ultimate-dashboard"
    else "/generate"
  }

  /** The reply to the save request: the fetch threw (with the text shown for it), or the
      server answered with its `ok` flag, status and body text. */
  datatype PaymentReply = FetchThrew(shown: string) | Answered(ok: bool, status: nat, text: string)

  /** What "Complete purchase" did: the request body sent, the error shown and the route
      taken. */
  datatype PaymentOutcome = PaymentOutcome(request: Option<Json>, error: Option<Json>, route: Option<string>)

  /** The request body for a user and a plan. */
  function RequestBody(userId: Json, plan: string): (r: Json)
    ensures r.JObj? && r.fields.Keys == {"user_id", "plan", "priceValue"}
    ensures r.fields["user_id"] == userId
    ensures r.fields["plan"] == JStr(if plan != [] then plan else FallbackPlan)
    ensures r.fields["priceValue"] == JNum(PriceValue(plan))
  {
    JObj(map["user_id" := userId, "plan" := JStr(if plan != [] then plan else FallbackPlan),
             "priceValue" := JNum(PriceValue(plan))])
  }

  /** `handleCompletePayment`. `userId` is `session?.user?.id ?? null`; `parse` stands for
      `JSON.parse`. */
  function CompletePayment(plan: string, userId: Json, confirmSignIn: bool, reply: PaymentReply,
                           parse: string -> Option<Json>): (r: PaymentOutcome)
    // without a signed-in user no request is sent
    ensures !Truthy(userId) ==> r.request.None? && r.error.None?
    ensures !Truthy(userId) ==> r.route == (if confirmSignIn then Some("/auth") else None)
    ensures Truthy(userId) ==> r.request == Some(RequestBody(userId, plan))
    // a refused or failed request shows an error and stays on the page
    ensures Truthy(userId) && !(reply.Answered? && reply.ok) ==> r.error.Some? && r.route.None?
    ensures Truthy(userId) && reply.Answered? && reply.ok ==> r.error.None? && r.route == Some(SuccessRoute(plan))
    // the error shown: the thrown error's text, else the reply's `error`, else the status
    ensures Truthy(userId) && reply.FetchThrew? ==> r.error == Some(JStr(reply.shown))
    ensures Truthy(userId) && reply.Answered? && !reply.ok && Present(FieldOpt(parse(reply.text), "error")) ==>
              r.error == FieldOpt(parse(reply.text), "error")
    ensures Truthy(userId) && reply.Answered? && !reply.ok && !Present(FieldOpt(parse(reply.text), "error")) ==>
              r.error == Some(JStr("Server returned status " + IntToString(reply.status)))
  {
    if !Truthy(userId) then PaymentOutcome(None, None, if confirmSignIn then Some("/auth") else None)
    else
      var request := RequestBody(userId, plan);
      match reply
      case FetchThrew(shown) => PaymentOutcome(Some(request), Some(JStr(shown)), None)
      case Answered(ok, status, text) =>
        if ok then PaymentOutcome(Some(request), None, Some(SuccessRoute(plan)))
        else
          var e := FieldOpt(parse(text), "error");
          PaymentOutcome(Some(request), Some(if Present(e) then e.value else JStr("Server returned status " + IntToString(status))), None)
  }

  /** The page and the save endpoint agree: the body the page sends for a signed-in user
      subscribes that very user to the plan on the page, without any token lookup. */
  lemma PurchaseSubscribesUser(plan: string, userId: Json, reply: PaymentReply, parse: string -> Option<Json>,
                               tokenUser: string -> Option<Json>, insert: Db.Query, nowIso: string)
    requires Truthy(userId) && plan != []
    ensures var body := CompletePayment(plan, userId, false, reply, parse).request.value;
            var saved := SaveSelectedPlan.Handle("POST", Some(body), None, None, parse, tokenUser, insert, nowIso);
            saved.token.None? && saved.inserted == Some(SaveSelectedPlan.SubscriptionRow(userId, JStr(plan), nowIso))
  {
    var body := RequestBody(userId, plan);
    assert SaveSelectedPlan.BodyOf(Some(body), parse) == Some(Some(body));
    assert FieldOpt(Some(body), "user_id") == Some(userId);
    assert FieldOpt(Some(body), "plan") == Some(JStr(plan));
  }

  /** A paid plan picked on the plan step arrives here under its own id and is charged the
      table's price, except career counselling, which the plan step never sends here. */
  lemma PaidPlanPrice(i: nat, stored: Option<string>)
    requires i < |PlanSelection.Plans|
    requires PlanSelection.Plans[i].id != PlanSelection.DefaultPlan && PlanSelection.Plans[i].id != "career-counseling"
    ensures var id := PlanSelection.Plans[i].id;
            PlanSelection.Route(id) == PlanSelection.PaymentPrefix + id
            && PlanOf(OnePlan(id), stored) == id
            && PriceValue(id) == PlanSelection.Plans[i].priceValue
  {
    PlanSelection.PaidPlansGoToPayment(i);
  }
}
