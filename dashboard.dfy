/** The free-plan dashboard of pages/dashboard.js: the statistics computed from the user's
    reports (tests taken, the scores that enter the average, the streak of consecutive
    report days ending today) and the checks and saved row of the create-test form.
    Calendar days are integers; `dayOf` gives the UTC day of a timestamp value, or `None`
    when `new Date(t)` is an invalid date (on which `toISOString` throws). */
module Dashboard {
  import opened Wrappers
  import opened Strings
  import opened JsonValue
  import GenerateOpenAi
  import GetReports
  import Db

  // ---------------------------------------------------------------------------
  // Statistics

  /** The list `computeStats` works on: the array's items, or nothing for a non-array. */
  function Tests(list: Json): (r: seq<Json>)
    ensures list.JArr? ==> r == list.items
    ensures !list.JArr? ==> r == []
  {
    if list.JArr? then list.items else []
  }

  /** `rep.score ?? rep.percent ?? rep.percentage ?? rep.marks`. */
  function ScoreField(rep: Json): Option<Json> {
    Coalesce(Field(rep, "score"), Coalesce(Field(rep, "percent"), Coalesce(Field(rep, "percentage"), Field(rep, "marks"))))
  }

  /** The score a report contributes to the average: a number, or a string that reads as
      a number; anything else is not counted. */
  function CountedScore(rep: Json): Option<int> {
    match ScoreField(rep)
    case Some(JNum(n)) => Some(n)
    case Some(JStr(s)) => StringToNumber(s)
    case _ => None
  }

  /** What a report gives the score loop: a null report, on which the loop throws, a
      report whose score is not counted, or a counted score. */
  datatype ScoreEntry = Unreadable | Uncounted | Counted(score: int)

  function ScoreOf(rep: Json): (r: ScoreEntry)
    ensures r.Unreadable? <==> rep.JNull?
    ensures r.Counted? ==> CountedScore(rep) == Some(r.score)
    ensures r.Uncounted? ==> CountedScore(rep).None?
  {
    if rep.JNull? then Unreadable
    else match CountedScore(rep)
      case None => Uncounted
      case Some(n) => Counted(n)
  }

  /** The entry of each report, in report order. */
  function Scores(tests: seq<Json>): (r: seq<ScoreEntry>)
    ensures |r| == |tests| && forall i :: 0 <= i < |tests| ==> r[i] == ScoreOf(tests[i])
  {
    seq(|tests|, i requires 0 <= i < |tests| => ScoreOf(tests[i]))
  }

  /** The sum of the counted scores among the first `n`. */
  function ScoreTotal(scores: seq<ScoreEntry>, n: nat): int
    requires n <= |scores|
  {
    if n == 0 then 0 else ScoreTotal(scores, n - 1) + (if scores[n - 1].Counted? then scores[n - 1].score else 0)
  }

  /** How many of the first `n` scores are counted. */
  function ScoreCount(scores: seq<ScoreEntry>, n: nat): nat
    requires n <= |scores|
  {
    if n == 0 then 0 else ScoreCount(scores, n - 1) + (if scores[n - 1].Counted? then 1 else 0)
  }

  /** At most one score is counted per report, and none at all (so that the average shown
      is 0) exactly when no report has a counted score; the total is then 0 too. */
  lemma {:induction false} ScoreCountBounds(scores: seq<ScoreEntry>, n: nat)
    requires n <= |scores|
    ensures ScoreCount(scores, n) <= n
    ensures ScoreCount(scores, n) == 0 <==> forall i :: 0 <= i < n ==> !scores[i].Counted?
    ensures ScoreCount(scores, n) == 0 ==> ScoreTotal(scores, n) == 0
  {
    if n > 0 {
      ScoreCountBounds(scores, n - 1);
    }
  }

  /** `rep.created_at ?? rep.taken_at ?? rep.scheduled_for ?? rep.createdAt ?? rep.date`. */
  function Timestamp(rep: Json): Option<Json> {
    Coalesce(Field(rep, "created_at"), Coalesce(Field(rep, "taken_at"), Coalesce(Field(rep, "scheduled_for"),
      Coalesce(Field(rep, "createdAt"), Field(rep, "date")))))
  }

  /** What a report gives the day loop: nothing (no truthy timestamp), an invalid date (the
      loop throws), or a day. */
  datatype DayEntry = NoStamp | BadDate | Day(day: int)

  function EntryOf(rep: Json, dayOf: Json -> Option<int>): (r: DayEntry)
    ensures r.NoStamp? <==> !Present(Timestamp(rep))
    ensures r.Day? ==> dayOf(Timestamp(rep).value) == Some(r.day)
    ensures r.BadDate? ==> dayOf(Timestamp(rep).value).None?
  {
    var t := Timestamp(rep);
    if !Present(t) then NoStamp
    else match dayOf(t.value)
      case None => BadDate
      case Some(d) => Day(d)
  }

  function Entries(tests: seq<Json>, dayOf: Json -> Option<int>): seq<DayEntry> {
    seq(|tests|, i requires 0 <= i < |tests| => EntryOf(tests[i], dayOf))
  }

  /** Every report that has a truthy timestamp has a valid date. */
  predicate DatesValid(entries: seq<DayEntry>) {
    forall i :: 0 <= i < |entries| ==> !entries[i].BadDate?
  }

  /** No report is null (reading `rep.score` of null throws). */
  predicate AllReadable(tests: seq<Json>) {
    forall i :: 0 <= i < |tests| ==> !tests[i].JNull?
  }

  /** The days of the first `n` entries. */
  function ReportDays(entries: seq<DayEntry>, n: nat): set<int>
    requires n <= |entries|
  {
    if n == 0 then {}
    else ReportDays(entries, n - 1) + (if entries[n - 1].Day? then {entries[n - 1].day} else {})
  }

  /** A day is in the set exactly when one of the entries is that day. */
  lemma {:induction false} ReportDaysExact(entries: seq<DayEntry>, n: nat, d: int)
    requires n <= |entries|
    ensures d in ReportDays(entries, n) <==> exists i :: 0 <= i < n && entries[i] == Day(d)
  {
    if n > 0 {
      ReportDaysExact(entries, n - 1, d);
      if entries[n - 1] == Day(d) {
        assert d in ReportDays(entries, n);
      }
    }
  }

  /** `k` is the streak ending at `today`: the `k` days up to today all have a report and
      the day before them has none. */
  predicate IsStreak(days: set<int>, today: int, k: nat) {
    (forall d :: today - k < d <= today ==> d in days) && today - k !in days
  }

  /** A streak is determined by the days and today: two streaks are equal. */
  lemma StreakUnique(days: set<int>, today: int, k1: nat, k2: nat)
    requires IsStreak(days, today, k1) && IsStreak(days, today, k2)
    ensures k1 == k2
  {
  }

  /** A run of consecutive days inside a set is no longer than the set. */
  lemma {:induction false} RunWithinSet(days: set<int>, lo: int, hi: int)
    requires lo <= hi + 1
    requires forall d :: lo <= d <= hi ==> d in days
    ensures |days| >= hi - lo + 1
    decreases hi - lo + 1
  {
    if lo <= hi {
      var rest := days - {hi};
      assert forall d :: lo <= d <= hi - 1 ==> d in rest;
      RunWithinSet(rest, lo, hi - 1);
    }
  }

  /** The score loop of `computeStats`: the sum and number of the counted scores, or
      `readable == false` when it reaches a null report (and throws). */
  method SumScores(scores: seq<ScoreEntry>) returns (readable: bool, total: int, counted: nat)
    ensures readable <==> forall i :: 0 <= i < |scores| ==> !scores[i].Unreadable?
    ensures readable ==> total == ScoreTotal(scores, |scores|) && counted == ScoreCount(scores, |scores|)
  {
    total := 0;
    counted := 0;
    for i := 0 to |scores|
      invariant total == ScoreTotal(scores, i) && counted == ScoreCount(scores, i)
      invariant forall j :: 0 <= j < i ==> !scores[j].Unreadable?
    {
      match scores[i]
      case Unreadable => return false, total, counted;
      case Uncounted =>
      case Counted(n) =>
        total := total + n;
        counted := counted + 1;
    }
    readable := true;
  }

  /** The day loop of `computeStats`: the set of report days, or `valid == false` when it
      reaches an invalid date (and throws). */
  method CollectDays(entries: seq<DayEntry>) returns (valid: bool, days: set<int>)
    ensures valid <==> DatesValid(entries)
    ensures valid ==> days == ReportDays(entries, |entries|)
  {
    days := {};
    for i := 0 to |entries|
      invariant days == ReportDays(entries, i)
      invariant forall j :: 0 <= j < i ==> !entries[j].BadDate?
    {
      match entries[i]
      case NoStamp =>
      case BadDate => return false, days;
      case Day(d) => days := days + {d};
    }
    valid := true;
  }

  /** The streak loop of `computeStats`: starting from today, count days while the day has
      a report. */
  method CountStreak(days: set<int>, today: int) returns (k: nat)
    ensures IsStreak(days, today, k)
    ensures k <= |days|
  {
    k := 0;
    var cursor := today;
    while cursor in days
      invariant cursor == today - k
      invariant forall d :: cursor < d <= today ==> d in days
      invariant k <= |days|
      decreases |days| - k
    {
      RunWithinSet(days, cursor, today);
      k := k + 1;
      cursor := cursor - 1;
    }
  }

  /** The statistics shown on the dashboard. The average score is kept as the total and the
      count it is divided by. */
  class Stats {
    var reports: seq<Json>
    var testsTaken: nat
    var scoreTotal: int
    var scoreCount: nat
    var streak: nat

    /** The page starts with no reports and zero statistics. */
    constructor ()
      ensures reports == [] && testsTaken == 0 && scoreTotal == 0 && scoreCount == 0 && streak == 0
    {
      reports := [];
      testsTaken := 0;
      scoreTotal := 0;
      scoreCount := 0;
      streak := 0;
    }

    /** `computeStats`. The test count is set first; a null report makes the score loop throw
        before the average is set, and an invalid date makes the day loop throw before the
        streak is set. `threw` says whether it threw. */
    method ComputeStats(list: Json, today: int, dayOf: Json -> Option<int>) returns (threw: bool)
      modifies this
      ensures reports == old(reports)
      ensures testsTaken == |Tests(list)|
      ensures threw <==> !(AllReadable(Tests(list)) && DatesValid(Entries(Tests(list), dayOf)))
      ensures AllReadable(Tests(list)) ==>
                scoreTotal == ScoreTotal(Scores(Tests(list)), |Tests(list)|)
                && scoreCount == ScoreCount(Scores(Tests(list)), |Tests(list)|)
      ensures !AllReadable(Tests(list)) ==> scoreTotal == old(scoreTotal) && scoreCount == old(scoreCount)
      ensures !threw ==> IsStreak(ReportDays(Entries(Tests(list), dayOf), |Tests(list)|), today, streak)
                         && streak <= |ReportDays(Entries(Tests(list), dayOf), |Tests(list)|)|
      ensures threw ==> streak == old(streak)
    {
      var tests := Tests(list);
      testsTaken := |tests|;
      var readable, total, counted := SumScores(Scores(tests));
      if !readable {
        return true;
      }
      scoreTotal := total;
      scoreCount := counted;
      var valid, days := CollectDays(Entries(tests, dayOf));
      if !valid {
        return true;
      }
      streak := CountStreak(days, today);
      return false;
    }

    /** `fetchReports`: `reply` is the reply's JSON, or `None` when the request failed or was
        refused. The list is `json.reports ?? json.data ?? json`; any failure, including one
        inside `computeStats`, leaves no reports and zero statistics. */
    method FetchReports(reply: Option<Json>, today: int, dayOf: Json -> Option<int>)
      modifies this
      ensures var list := ReportList(reply);
              if list.Some? && AllReadable(Tests(list.value)) && DatesValid(Entries(Tests(list.value), dayOf)) then
                reports == Tests(list.value) && testsTaken == |reports|
                && scoreTotal == ScoreTotal(Scores(reports), |reports|) && scoreCount == ScoreCount(Scores(reports), |reports|)
                && IsStreak(ReportDays(Entries(reports, dayOf), |reports|), today, streak)
              else
                reports == [] && testsTaken == 0 && scoreTotal == 0 && scoreCount == 0 && streak == 0
    {
      var list := ReportList(reply);
      if list.Some? {
        reports := Tests(list.value);
        var threw := ComputeStats(list.value, today, dayOf);
        if !threw {
          return;
        }
      }
      reports := [];
      var threw := ComputeStats(JArr([]), today, dayOf);
      assert Entries([], dayOf) == [];
      assert today !in ReportDays([], 0);
    }
  }

  /** `json.reports ?? json.data ?? json`; `None` when there is no reply or the reply is
      null (reading a property of null throws). */
  function ReportList(reply: Option<Json>): (r: Option<Json>)
    ensures r.Some? <==> reply.Some? && !reply.value.JNull?
    ensures r.Some? && !Nullish(Field(reply.value, "reports")) ==> r == Field(reply.value, "reports")
    ensures r.Some? && Nullish(Field(reply.value, "reports")) && !Nullish(Field(reply.value, "data")) ==>
              r == Field(reply.value, "data")
    ensures r.Some? && Nullish(Field(reply.value, "reports")) && Nullish(Field(reply.value, "data")) ==> r == reply
  {
    if reply.None? || reply.value.JNull? then None
    else Coalesce(Field(reply.value, "reports"), Coalesce(Field(reply.value, "data"), reply))
  }

  // ---------------------------------------------------------------------------
  // Where the reports come from

  /** The JSON `fetchReports` reads from the get-reports handler: the `{ reports }` body of a
      200 reply, or `None` for a refusal, on which `!resp.ok` throws. */
  function ReportsReplyJson(reply: GetReports.Reply): (r: Option<Json>)
    ensures r.None? <==> reply.Refused?
    ensures reply.Reports? ==> r.Some? && Field(r.value, "reports") == Some(JArr(seq(|reply.reports|, i requires 0 <= i < |reply.reports| => JObj(reply.reports[i]))))
  {
    match reply
    case Refused(_, _) => None
    case Reports(rows) => Some(JObj(map["reports" := JArr(seq(|rows|, i requires 0 <= i < |rows| => JObj(rows[i])))]))
  }

  /** `fetch("/api/get-reports")` without options: a GET with no body. */
  const ReportsMethod := "GET"

  /** As written, the dashboard's request is refused whatever the tables hold, so the list it
      reads is absent and `fetchReports` leaves no reports and zero statistics. */
  lemma ReportsRequestRefused(users: Db.Query, reports: Db.Query, f: GetReports.Filtering)
    ensures GetReports.Handle(ReportsMethod, None, users, reports, f) == GetReports.Refused(405, GetReports.MethodNotAllowed)
    ensures ReportList(ReportsReplyJson(GetReports.Handle(ReportsMethod, None, users, reports, f))).None?
  {
  }

  /** The request the dashboard evidently meant: a POST whose body names the signed-in user. */
  function IntendedReportsBody(authUserId: Json): (r: Json)
    ensures Field(r, "supabaseUserId") == Some(authUserId)
  {
    JObj(map["supabaseUserId" := authUserId])
  }

  /** With that request, a known user's dashboard receives exactly the reports the handler
      keeps for them, in the handler's order, as the list its statistics are computed on. */
  lemma IntendedReportsReachStats(authUserId: Json, users: Db.Query, rows: seq<Db.Row>, f: GetReports.Filtering)
    requires Truthy(authUserId) && Db.FirstRow(users).Some?
    ensures var reply := GetReports.Handle("POST", Some(IntendedReportsBody(authUserId)), users, Db.Data(rows), f);
            var kept := GetReports.Filter(rows, f, Db.Col(Db.FirstRow(users).value, "id"));
            reply == GetReports.Reports(kept)
            && ReportList(ReportsReplyJson(reply)).Some?
            && Tests(ReportList(ReportsReplyJson(reply)).value) == seq(|kept|, i requires 0 <= i < |kept| => JObj(kept[i]))
  {
    var body := IntendedReportsBody(authUserId);
    assert Present(FieldOpt(Some(body), "supabaseUserId"));
  }

  // ---------------------------------------------------------------------------
  // Creating a test

  const NeedName := "Please enter a test name."
  const BadCount := "Questions must be between 2 and 20."
  const TooLarge := "PDF too large — max 5MB."
  const ExtractFailed := "Failed to extract PDF. See console."
  const NoText := "No text provided or extracted from PDF."
  const GenerationFailed := "AI generation failed — check console."
  const SavedToServer := "Test generated & saved."
  const SaveRefused := "Generated (saved locally) — failed to save to server (see console)."
  const SaveThrew := "Generated — failed to save (check console)."
  const Unexpected := "Unexpected error while generating test."

  /** The largest PDF accepted, in bytes. */
  const MaxPdfBytes := 5 * 1024 * 1024

  /** The outcome of a request: it threw, it came back not OK, or it answered. */
  datatype Call<T> = Threw | NotOk | Answered(value: T)

  /** The outcome of the insert into `scheduled_tests`. */
  datatype Save = InsertThrew | InsertError | Inserted

  /** The row the form inserts into `scheduled_tests`. */
  datatype SavedTest = SavedTest(
    scheduleId: Option<int>, userId: Json, generatedFromUploadId: Option<int>,
    payload: Json, status: string, scheduledFor: int, testName: string)

  /** What `handleCreateTest` did: the message it left, whether it asked for the PDF text,
      the body it sent to the generator, the questions it shows and the row it inserted. */
  datatype CreateOutcome = CreateOutcome(
    message: string, extractCalled: bool, request: Option<Json>, generated: Option<Json>, saved: Option<SavedTest>)

  /** The form's input: the test name, the question count, the selected type, the size of
      the chosen PDF if any, and the pasted text. */
  datatype Form = Form(testName: string, count: int, qType: string, pdfSize: Option<nat>, textInput: string)

  /** The type sent to the generator: MCQ and QA as they are, anything else as MIX. */
  function TypeSent(qType: string): (r: string)
    ensures r == "MCQ" || r == "QA" || r == "MIX"
    ensures qType == "MCQ" || qType == "QA" ==> r == qType
    ensures qType != "MCQ" && qType != "QA" ==> r == "MIX"
  {
    if qType == "MCQ" then "MCQ" else if qType == "QA" then "QA" else "MIX"
  }

  /** The body sent to /api/generate-openai; `name` is the trimmed test name. */
  function RequestBody(text: string, count: int, qType: string, name: string): Json {
    JObj(map["text" := JStr(text), "questions" := JNum(count), "type" := JStr(TypeSent(qType)),
             "testName" := JStr(name)])
  }

  /** The checks made before anything is uploaded: a test name that is not blank, then a
      count within 2 to 20. */
  function CheckForm(f: Form): (r: Option<string>)
    ensures r.None? <==> Trim(f.testName) != [] && 2 <= f.count <= 20
    ensures Trim(f.testName) == [] ==> r == Some(NeedName)
    ensures Trim(f.testName) != [] && !(2 <= f.count <= 20) ==> r == Some(BadCount)
  {
    if f.testName == [] || Trim(f.testName) == [] then Some(NeedName)
    else if f.count < 2 || f.count > 20 then Some(BadCount)
    else None
  }

  /** The text the form sends: the trimmed pasted text without a PDF, the extracted text
      of a PDF within the size limit, nothing when the PDF is too large or its extraction
      failed. */
  function FormText(f: Form, extract: Call<string>): (r: Option<string>)
    ensures f.pdfSize.None? ==> r == Some(Trim(f.textInput))
    ensures f.pdfSize.Some? ==> (r.Some? <==> f.pdfSize.value <= MaxPdfBytes && extract.Answered?)
    ensures f.pdfSize.Some? && r.Some? ==> r.value == extract.value
  {
    if f.pdfSize.None? then Some(Trim(f.textInput))
    else if f.pdfSize.value <= MaxPdfBytes && extract.Answered? then Some(extract.value)
    else None
  }

  /** `handleCreateTest`, given the outcome of each request it makes (`extract` gives the
      extracted text, `generate` the generator's reply) and the signed-in user id. */
  function CreateTest(f: Form, extract: Call<string>, generate: Call<Json>, save: Save, userId: Json, now: int)
    : (r: CreateOutcome)
    ensures CheckForm(f).Some? ==> r == CreateOutcome(CheckForm(f).value, false, None, None, None)
    ensures r.extractCalled <==> CheckForm(f).None? && f.pdfSize.Some? && f.pdfSize.value <= MaxPdfBytes
    ensures CheckForm(f).None? && f.pdfSize.Some? && f.pdfSize.value > MaxPdfBytes ==>
              r == CreateOutcome(TooLarge, false, None, None, None)
    ensures CheckForm(f).None? && f.pdfSize.Some? && f.pdfSize.value <= MaxPdfBytes && extract.Threw? ==>
              r == CreateOutcome(Unexpected, true, None, None, None)
    ensures CheckForm(f).None? && f.pdfSize.Some? && f.pdfSize.value <= MaxPdfBytes && extract.NotOk? ==>
              r == CreateOutcome(ExtractFailed, true, None, None, None)
    ensures CheckForm(f).None? && FormText(f, extract) == Some([]) ==>
              r == CreateOutcome(NoText, f.pdfSize.Some?, None, None, None)
    ensures r.request.Some? <==> CheckForm(f).None? && FormText(f, extract).Some? && FormText(f, extract).value != []
    ensures r.request.Some? ==>
              r == GenerateAndSave(RequestBody(FormText(f, extract).value, f.count, f.qType, Trim(f.testName)),
                                   Trim(f.testName), f.pdfSize.Some?, generate, save, userId, now)
  {
    if CheckForm(f).Some? then CreateOutcome(CheckForm(f).value, false, None, None, None)
    else if f.pdfSize.Some? && f.pdfSize.value > MaxPdfBytes then CreateOutcome(TooLarge, false, None, None, None)
    else if f.pdfSize.Some? && extract.Threw? then CreateOutcome(Unexpected, true, None, None, None)
    else if f.pdfSize.Some? && extract.NotOk? then CreateOutcome(ExtractFailed, true, None, None, None)
    else
      var text := FormText(f, extract).value;
      if text == [] then CreateOutcome(NoText, f.pdfSize.Some?, None, None, None)
      else GenerateAndSave(RequestBody(text, f.count, f.qType, Trim(f.testName)), Trim(f.testName), f.pdfSize.Some?, generate, save, userId, now)
  }

  /** The part of `handleCreateTest` from the request to the generator on: the questions
      shown are the reply's `questions` field, or the reply itself, and they are saved. */
  function GenerateAndSave(body: Json, name: string, called: bool, generate: Call<Json>, save: Save, userId: Json, now: int)
    : (r: CreateOutcome)
    ensures r.request == Some(body) && r.extractCalled == called
    ensures generate.Threw? ==> r.message == Unexpected && r.generated.None?
    ensures generate.NotOk? ==> r.message == GenerationFailed && r.generated.None?
    ensures generate.Answered? && generate.value.JNull? ==> r.message == Unexpected && r.generated.None?
    ensures r.generated.Some? <==> generate.Answered? && !generate.value.JNull?
    ensures r.generated.Some? ==> r.generated.value == Coalesce(Field(generate.value, "questions"), Some(generate.value)).value
    ensures r.saved.Some? <==> r.generated.Some?
    ensures r.saved.Some? ==> r.saved.value == SavedTest(None, userId, None, r.generated.value, "generated", now, name)
    ensures r.saved.Some? ==> r.message == match save case Inserted => SavedToServer case InsertError => SaveRefused case InsertThrew => SaveThrew
  {
    match generate
    case Threw => CreateOutcome(Unexpected, called, Some(body), None, None)
    case NotOk => CreateOutcome(GenerationFailed, called, Some(body), None, None)
    case Answered(reply) =>
      if reply.JNull? then CreateOutcome(Unexpected, called, Some(body), None, None)
      else
        var questions := Coalesce(Field(reply, "questions"), Some(reply)).value;
        var row := SavedTest(None, userId, None, questions, "generated", now, name);
        var message := match save
          case Inserted => SavedToServer
          case InsertError => SaveRefused
          case InsertThrew => SaveThrew;
        CreateOutcome(message, called, Some(body), Some(questions), Some(row))
  }

  // ---------------------------------------------------------------------------
  // The type the generator receives

  /** The kind the generator reads from a body whose type is a non-empty string. */
  lemma KindOfType(body: Json, t: string)
    requires Field(body, "type") == Some(JStr(t)) && t != []
    ensures GenerateOpenAi.RequestKind(body) == (if ToUpper(t) in {"QNA", "MCQ", "MIXED"} then ToUpper(t) else "MCQ")
  {
  }

  /** As written, any selection other than MCQ reaches the generator as a type it does not
      know (QA or MIX), so it produces multiple-choice questions only. */
  lemma QaBecomesMcq(text: string, count: int, name: string)
    ensures GenerateOpenAi.RequestKind(RequestBody(text, count, "QA", name)) == "MCQ"
  {
    RequestBodyType(text, count, "QA", name);
    SentTypeReadAsMcq(RequestBody(text, count, "QA", name), "QA");
  }

  /** Likewise the mixed selection, sent as MIX. */
  lemma MixBecomesMcq(text: string, count: int, name: string)
    ensures GenerateOpenAi.RequestKind(RequestBody(text, count, "MIX", name)) == "MCQ"
  {
    RequestBodyType(text, count, "MIX", name);
    SentTypeReadAsMcq(RequestBody(text, count, "MIX", name), "MIX");
  }

  /** The body carries the type the form sends. */
  lemma RequestBodyType(text: string, count: int, qType: string, name: string)
    ensures Field(RequestBody(text, count, qType, name), "type") == Some(JStr(TypeSent(qType)))
  {
    var m := RequestBody(text, count, qType, name).fields;
    assert "type" in m && m["type"] == JStr(TypeSent(qType));
  }

  /** A body whose type is one of the form's names other than MCQ is read as MCQ. */
  lemma SentTypeReadAsMcq(body: Json, t: string)
    requires t == "QA" || t == "MIX"
    requires Field(body, "type") == Some(JStr(t))
    ensures GenerateOpenAi.RequestKind(body) == "MCQ"
  {
    UpperOfUpper(t);
    KindOfType(body, t);
    assert |t| == 2 || t[1] == 'I';
  }

  /** The names the generator uses for the form's three types. */
  function IntendedType(qType: string): (r: string)
    ensures qType == "MCQ" ==> r == "MCQ"
    ensures qType == "QA" ==> r == "QNA"
    ensures qType != "MCQ" && qType != "QA" ==> r == "MIXED"
  {
    if qType == "MCQ" then "MCQ" else if qType == "QA" then "QNA" else "MIXED"
  }

  /** The body with the generator's own type names. */
  function IntendedRequestBody(text: string, count: int, qType: string, name: string): Json {
    JObj(map["text" := JStr(text), "questions" := JNum(count), "type" := JStr(IntendedType(qType)),
             "testName" := JStr(name)])
  }

  /** With the generator's own names, every selection reaches it as the kind chosen, and the
      three selections give three different kinds. */
  lemma IntendedTypeReachesGenerator(text: string, count: int, qType: string, name: string)
    ensures GenerateOpenAi.RequestKind(IntendedRequestBody(text, count, qType, name)) == IntendedType(qType)
    ensures qType == "QA" ==> GenerateOpenAi.RequestKind(IntendedRequestBody(text, count, qType, name)) == "QNA"
  {
    var body := IntendedRequestBody(text, count, qType, name);
    var t := IntendedType(qType);
    assert Field(body, "type") == Some(JStr(t)) by {
      assert "type" in body.fields && body.fields["type"] == JStr(t);
    }
    UpperOfUpper(t);
    KindOfType(body, t);
  }
}
