/** The profile form of pages/setup-profile.js: four required fields, checked in order, and
    what "Continue" does with a form that passes. The signed-in user (if the client finds
    one) and the clock are inputs; the local copy and the profile upsert are recorded in the
    outcome. */
module SetupProfile {
  import opened Wrappers
  import opened Strings
  import opened JsonValue
  import opened Db

  datatype Profile = Profile(fullName: string, mobile: string, email: string, username: string)

  const NeedFullName := "Please enter your full name"
  const NeedMobile := "Please enter mobile number"
  const NeedEmail := "Please enter email address"
  const NeedUsername := "Please choose a unique username"
  const NextPage := "/setup-profile-step2"

  /** `validate`: the message for the first field, in form order, that is empty after
      trimming; `None` when all four are filled in. */
  function Validate(p: Profile): (r: Option<string>)
    ensures r.None? <==> Trim(p.fullName) != [] && Trim(p.mobile) != [] && Trim(p.email) != [] && Trim(p.username) != []
    ensures r == Some(NeedFullName) <==> Trim(p.fullName) == []
    ensures r == Some(NeedMobile) <==> Trim(p.fullName) != [] && Trim(p.mobile) == []
    ensures r == Some(NeedEmail) <==> Trim(p.fullName) != [] && Trim(p.mobile) != [] && Trim(p.email) == []
    ensures r == Some(NeedUsername) <==>
              Trim(p.fullName) != [] && Trim(p.mobile) != [] && Trim(p.email) != [] && Trim(p.username) == []
  {
    if Trim(p.fullName) == [] then Some(NeedFullName)
    else if Trim(p.mobile) == [] then Some(NeedMobile)
    else if Trim(p.email) == [] then Some(NeedEmail)
    else if Trim(p.username) == [] then Some(NeedUsername)
    else None
  }

  /** A field made only of white space counts as missing, wherever it is. */
  lemma BlankFieldRejected(p: Profile)
    requires AllSpace(p.fullName) || AllSpace(p.mobile) || AllSpace(p.email) || AllSpace(p.username)
    ensures Validate(p).Some?
  {
    TrimEmptyIffBlank(p.fullName);
    TrimEmptyIffBlank(p.mobile);
    TrimEmptyIffBlank(p.email);
    TrimEmptyIffBlank(p.username);
  }

  /** What pressing "Continue" leads to: the error shown, the profile kept in local storage,
      the `profiles` row upserted, and the page navigated to. */
  datatype ContinueOutcome = ContinueOutcome(error: string, stored: Option<Profile>, upsert: Option<Row>, next: Option<string>)

  /** The `profiles` row for a signed-in user. */
  function ProfileRow(userId: Json, p: Profile, nowIso: string): (r: Row)
    ensures r.Keys == {"id", "full_name", "phone", "email", "username", "updated_at"}
    ensures r["id"] == userId && r["full_name"] == JStr(p.fullName) && r["phone"] == JStr(p.mobile)
    ensures r["email"] == JStr(p.email) && r["username"] == JStr(p.username) && r["updated_at"] == JStr(nowIso)
  {
    map["id" := userId, "full_name" := JStr(p.fullName), "phone" := JStr(p.mobile),
        "email" := JStr(p.email), "username" := JStr(p.username), "updated_at" := JStr(nowIso)]
  }

  /** `handleContinue`. `userId` is the id of the signed-in user the client reports, if any;
      the upsert is best effort, so its outcome changes nothing. */
  function Continue(p: Profile, userId: Option<Json>, nowIso: string): (r: ContinueOutcome)
    ensures Validate(p).Some? ==> r == ContinueOutcome(Validate(p).value, None, None, None)
    ensures Validate(p).None? ==> r.error == "" && r.stored == Some(p) && r.next == Some(NextPage)
    ensures r.upsert.Some? <==> Validate(p).None? && Present(userId)
    ensures r.upsert.Some? ==> r.upsert == Some(ProfileRow(userId.value, p, nowIso))
  {
    match Validate(p)
    case Some(message) => ContinueOutcome(message, None, None, None)
    case None =>
      ContinueOutcome("", Some(p), if Present(userId) then Some(ProfileRow(userId.value, p, nowIso)) else None, Some(NextPage))
  }
}
