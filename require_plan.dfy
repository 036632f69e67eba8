/** The plan gate of lib/useRequirePlan.js: after looking up the signed-in user and their
    latest subscription, a page is allowed when the subscription is active and its plan is
    one of the required plans; otherwise the hook redirects. The session lookup and the
    subscription query are inputs. */
module RequirePlan {
  import opened Wrappers
  import opened JsonValue

  /** The outcome of the session lookup. */
  datatype Session = SessionThrew | NoUser | SignedIn(userId: Json)

  /** The latest subscription row (`plan`, `status`). */
  datatype Subscription = Subscription(plan: Json, status: Json)

  /** The outcome of the subscription query: it threw, it returned an error, or it gave the
      latest row if there is one. */
  datatype Query = QueryThrew | QueryError | Latest(row: Option<Subscription>)

  /** The hook's final state: whether the page is allowed, the active plan it recorded,
      where it redirected (if it did) and whether it queried subscriptions. */
  datatype Gate = Gate(allowed: bool, userPlan: Json, redirect: Option<Json>, queried: bool)

  const AuthRoute := "/auth"
  const PlansRoute := "/plans"

  /** `options.redirectIfMissing || "/plans"`. */
  function RedirectTarget(redirectIfMissing: Option<Json>): (r: Json)
    ensures Present(redirectIfMissing) ==> r == redirectIfMissing.value
    ensures !Present(redirectIfMissing) ==> r == JStr(PlansRoute)
  {
    if Present(redirectIfMissing) then redirectIfMissing.value else JStr(PlansRoute)
  }

  /** The plan of the latest subscription when its status is exactly "active", else null. */
  function ActivePlan(row: Option<Subscription>): (r: Json)
    ensures row.Some? && row.value.status == JStr("active") ==> r == row.value.plan
    ensures !(row.Some? && row.value.status == JStr("active")) ==> r == JNull
  {
    if row.Some? && row.value.status == JStr("active") then row.value.plan else JNull
  }

  /** The required plans: an array as it is, anything else as a list of one. */
  function Required(requiredPlan: Json): (r: seq<Json>)
    ensures requiredPlan.JArr? ==> r == requiredPlan.items
    ensures !requiredPlan.JArr? ==> r == [requiredPlan]
  {
    if requiredPlan.JArr? then requiredPlan.items else [requiredPlan]
  }

  /** `required.includes(plan)`: arrays and objects are compared by reference, so only a
      primitive plan can be found. */
  predicate Includes(required: seq<Json>, plan: Json) {
    exists i :: 0 <= i < |required| && StrictEq(Some(required[i]), Some(plan))
  }

  /** `checkPlan`, run to completion on a mounted page. */
  function CheckPlan(requiredPlan: Json, redirectIfMissing: Option<Json>, session: Session, query: Query)
    : (r: Gate)
    ensures session.NoUser? ==> r == Gate(false, JNull, Some(JStr(AuthRoute)), false)
    ensures r.queried <==> session.SignedIn?
    ensures r.allowed <==>
              session.SignedIn? && query.Latest? && Truthy(ActivePlan(query.row))
              && Includes(Required(requiredPlan), ActivePlan(query.row))
    ensures r.allowed ==> r.redirect.None?
    ensures !r.allowed && !session.NoUser? ==> r.redirect == Some(RedirectTarget(redirectIfMissing))
    ensures r.userPlan == (if session.SignedIn? && query.Latest? then ActivePlan(query.row) else JNull)
  {
    match session
    case SessionThrew => Gate(false, JNull, Some(RedirectTarget(redirectIfMissing)), false)
    case NoUser => Gate(false, JNull, Some(JStr(AuthRoute)), false)
    case SignedIn(_) =>
      match query
      case QueryThrew => Gate(false, JNull, Some(RedirectTarget(redirectIfMissing)), true)
      case QueryError => Gate(false, JNull, Some(RedirectTarget(redirectIfMissing)), true)
      case Latest(row) =>
        var plan := ActivePlan(row);
        if Truthy(plan) && Includes(Required(requiredPlan), plan) then Gate(true, plan, None, true)
        else Gate(false, plan, Some(RedirectTarget(redirectIfMissing)), true)
  }

  /** With a single required plan given as a string, a signed-in user is let in exactly when
      their latest subscription is active and on that very plan. */
  lemma SinglePlanGate(plan: string, redirectIfMissing: Option<Json>, userId: Json, row: Option<Subscription>)
    requires plan != []
    ensures CheckPlan(JStr(plan), redirectIfMissing, SignedIn(userId), Latest(row)).allowed
            <==> row.Some? && row.value.status == JStr("active") && row.value.plan == JStr(plan)
  {
    var r := CheckPlan(JStr(plan), redirectIfMissing, SignedIn(userId), Latest(row));
    if row.Some? && row.value.status == JStr("active") && row.value.plan == JStr(plan) {
      assert StrictEq(Some(Required(JStr(plan))[0]), Some(ActivePlan(row)));
    }
  }

  /** A subscription that is not active never lets a user in, whatever plans are required. */
  lemma InactiveNeverAllowed(requiredPlan: Json, redirectIfMissing: Option<Json>, session: Session, sub: Subscription)
    requires sub.status != JStr("active")
    ensures !CheckPlan(requiredPlan, redirectIfMissing, session, Latest(Some(sub))).allowed
    ensures session.SignedIn? ==>
              CheckPlan(requiredPlan, redirectIfMissing, session, Latest(Some(sub))).redirect == Some(RedirectTarget(redirectIfMissing))
  {
  }
}
