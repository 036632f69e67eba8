/** The scheduled-test pipeline of scripts/generate_scheduled_tests.js: one sequential pass
    that selects the due schedules, asks the language model for a test per schedule, stores
    it, advances the schedule and sends a WhatsApp reminder.

    The database tables the pass writes are fields of the class `Backend`. Everything the
    pass learns from outside (the clock, query failures, the model's reply, `JSON.parse`,
    the gateway configuration, the outcome of each send) comes from an `Env` of oracles.
    Oracles consulted once per schedule take the schedule's position `k` in the due list. */
module Scheduler {
  import opened Wrappers
  import opened Strings
  import opened JsonValue
  import opened Extract

  /** A schedule is due again 23 hours after its last run. */
  const DueAfterMs: int := 23 * 60 * 60 * 1000

  /** The number of questions the pass asks for, and the number of uploads it looks at. */
  const TestSize: int := 5
  const UploadLimit: nat := 5

  /** A `test_schedules` row; times are milliseconds since the epoch. */
  datatype Schedule = Schedule(id: nat, userId: nat, enabled: bool, lastRun: Option<int>, updatedAt: Option<int>)

  /** An `uploads` row, as far as the prompt uses it. */
  datatype Upload = Upload(id: nat, filename: Option<string>)

  /** A `scheduled_tests` row. */
  datatype ScheduledTest = ScheduledTest(
    id: nat, scheduleId: nat, userId: nat, generatedFromUploadId: Option<nat>,
    testPayload: Json, status: string, scheduledFor: int)

  /** The `meta` column of a reminder log: the send time, or the error's text. */
  datatype LogMeta = SentAt(at: int) | SendError(error: string)

  /** A `reminder_logs` row. */
  datatype ReminderLog = ReminderLog(
    scheduledTestId: Option<nat>, userId: nat, channel: string, message: string,
    success: bool, meta: LogMeta)

  /** A message handed to the WhatsApp gateway. */
  datatype Outgoing = Outgoing(from: string, to: string, body: string)

  /** The chat-completion call: it throws, or answers with a message whose content may be
      missing. */
  datatype AiReply = AiFailed | AiAnswered(content: Option<string>)

  /** The `scheduled_tests` insert: it reports an error, or succeeds and may or may not hand
      back the new row's id. */
  datatype InsertOutcome = InsertFailed | InsertDone(returnsId: bool)

  /** The gateway send: it resolves, or throws an error whose `String(err)` is given. */
  datatype SendOutcome = Delivered | SendFailed(error: string)

  datatype Env = Env(
    now: int,
    scheduleQueryFails: bool,
    uploadsQuery: nat -> Option<seq<Upload>>,
    ai: (nat, string, string) -> AiReply,
    parse: string -> Option<Json>,
    insert: nat -> InsertOutcome,
    markOk: nat -> bool,
    twilioClient: bool,
    twilioFrom: Option<string>,
    phoneOf: nat -> Option<string>,
    send: nat -> SendOutcome,
    logInsertOk: nat -> bool)

  /** The state of the tables the pass touches. */
  datatype Tables = Tables(
    schedules: seq<Schedule>, scheduledTests: seq<ScheduledTest>,
    reminderLogs: seq<ReminderLog>, outbox: seq<Outgoing>, nextTestId: nat)

  // ----- selecting the due schedules -----

  /** Enabled, and never run or last run strictly more than 23 hours ago. */
  predicate IsDue(s: Schedule, now: int) {
    s.enabled && (s.lastRun.None? || now - s.lastRun.value > DueAfterMs)
  }

  /** The enabled rows the schedule query returns, filtered by the due check. */
  function DueSchedules(rows: seq<Schedule>, now: int): (r: seq<Schedule>)
    ensures |r| <= |rows|
    ensures forall s :: s in r <==> s in rows && IsDue(s, now)
    decreases |rows|
  {
    if rows == [] then []
    else (if IsDue(rows[0], now) then [rows[0]] else []) + DueSchedules(rows[1..], now)
  }

  /** The filter keeps the fetch order: it distributes over concatenation. */
  lemma {:induction false} DueSchedulesAppend(a: seq<Schedule>, b: seq<Schedule>, now: int)
    ensures DueSchedules(a + b, now) == DueSchedules(a, now) + DueSchedules(b, now)
    decreases |a|
  {
    if a == [] {
      assert a + b == b;
    } else {
      assert (a + b)[0] == a[0];
      assert (a + b)[1..] == a[1..] + b;
      DueSchedulesAppend(a[1..], b, now);
    }
  }

  // ----- the prompt -----

  /** `getRecentUploadsForUser(user_id, 5)`: a query error or no data gives no uploads. */
  function RecentUploads(env: Env, userId: nat): (r: seq<Upload>)
    ensures |r| <= UploadLimit
    ensures env.uploadsQuery(userId).None? ==> r == []
    ensures env.uploadsQuery(userId).Some? ==> r <= env.uploadsQuery(userId).value
    // the first five rows, or all of them when there are fewer
    ensures env.uploadsQuery(userId).Some? ==>
              var rows := env.uploadsQuery(userId).value;
              |r| == (if |rows| < UploadLimit then |rows| else UploadLimit) && r == rows[..|r|]
  {
    match env.uploadsQuery(userId)
    case None => []
    case Some(rows) => if |rows| <= UploadLimit then rows else rows[..UploadLimit]
  }

  /** A file name in a template literal; a null name renders as "null". */
  function FileLabel(u: Upload): string {
    if u.filename.None? then "null" else u.filename.value
  }

  function UploadLines(uploads: seq<Upload>): (r: seq<string>)
    ensures |r| == |uploads|
  {
    seq(|uploads|, i requires 0 <= i < |uploads| => IntToString(i + 1) + ". " + FileLabel(uploads[i]))
  }

  const GenericTail: string :=
    "-question MCQ test on general high-school level biology: cells, mitochondria, photosynthesis, and DNA. Output a JSON array only. For each MCQ return: { \"question\": \"...\", \"options\": [\"...\",\"...\",\"...\",\"...\"], \"answer\": \"A\" }"

  function GenericPrompt(count: int): string {
    "Create a " + IntToString(count) + GenericTail
  }

  const UploadsHeaderTail: string := "-question MCQ test using the following uploaded study materials:"

  function UploadsHeader(count: int): string {
    "Create a " + IntToString(count) + UploadsHeaderTail
  }

  const UploadsFooter: string :=
    "Output JSON array only. For each MCQ return: { \"question\": \"...\", \"options\": [\"opt1\",\"opt2\",\"opt3\",\"opt4\"], \"answer\": \"A\" }"

  /** `buildPromptFromUploads`: the fixed biology prompt when there are no uploads, else the
      uploads' numbered listing between a header and a footer. */
  function BuildPrompt(uploads: seq<Upload>, count: int): (r: string)
    ensures uploads == [] ==> r == GenericPrompt(count)
    ensures uploads != [] ==>
              r == UploadsHeader(count) + "\n" + JoinWith(UploadLines(uploads), '\n') + "\n\n" + UploadsFooter
  {
    if uploads == [] then GenericPrompt(count)
    else UploadsHeader(count) + "\n" + JoinWith(UploadLines(uploads), '\n') + "\n\n" + UploadsFooter
  }

  lemma NoNewlineInNumber(n: int)
    ensures '\n' !in IntToString(n)
  {
    var d := NatToString(if n < 0 then -n else n);
    if n < 0 {
      assert IntToString(n) == "-" + d;
    }
  }

  /** The listing in the prompt reads back, line by line, as one line "<i+1>. <filename>"
      per upload, in input order, provided no file name holds a line break. */
  lemma ListingLines(uploads: seq<Upload>)
    requires uploads != []
    requires forall i :: 0 <= i < |uploads| ==> '\n' !in FileLabel(uploads[i])
    ensures var lines := SplitOn(JoinWith(UploadLines(uploads), '\n'), '\n');
            |lines| == |uploads| &&
            forall i :: 0 <= i < |uploads| ==> lines[i] == IntToString(i + 1) + ". " + FileLabel(uploads[i])
  {
    var lines := UploadLines(uploads);
    forall k | 0 <= k < |lines| ensures '\n' !in lines[k] {
      NoNewlineInNumber(k + 1);
      assert lines[k] == IntToString(k + 1) + ". " + FileLabel(uploads[k]);
    }
    SplitJoin(lines, '\n');
  }

  // ----- the model's reply -----

  const SystemHead: string := "You are an exam prep assistant. Generate exactly "
  const SystemTail: string :=
    " questions as a JSON array. For MCQ items use: { \"question\":\"...\", \"options\":[\"A\",\"B\",\"C\",\"D\"], \"answer\":\"A\" }"

  function SystemPrompt(count: int, kind: string): string {
    SystemHead + IntToString(count) + " " + kind + SystemTail
  }

  const NoJsonFound: string := "no JSON found"
  const Unparsable: string := "OpenAI response unparsable"
  const AiFailedText: string := "OpenAI request failed"

  /** The reply parsing of `generateTestWithOpenAI`: strip the fences and trim, parse; if
      that fails, parse the span from the first `[` to the last `]`; if there is none or it
      does not parse either, fail. */
  function ParseReply(raw: string, parse: string -> Option<Json>): (r: Result<Json, string>)
    ensures var cleaned := Trim(StripFences(raw));
            r.Ok? <==> parse(cleaned).Some?
                       || (BracketSpan(cleaned, '[', ']').Some? && parse(BracketSpan(cleaned, '[', ']').value).Some?)
    ensures var cleaned := Trim(StripFences(raw));
            parse(cleaned).Some? ==> r == Ok(parse(cleaned).value)
    // the fallback: the bracketed span's value, or one of the two failures
    ensures var cleaned := Trim(StripFences(raw));
            parse(cleaned).None? && BracketSpan(cleaned, '[', ']').None? ==> r == Err(NoJsonFound)
    ensures var cleaned := Trim(StripFences(raw));
            var span := BracketSpan(cleaned, '[', ']');
            parse(cleaned).None? && span.Some? ==>
              r == (if parse(span.value).Some? then Ok(parse(span.value).value) else Err(Unparsable))
  {
    var cleaned := Trim(StripFences(raw));
    match parse(cleaned)
    case Some(v) => Ok(v)
    case None =>
      match BracketSpan(cleaned, '[', ']')
      case None => Err(NoJsonFound)
      case Some(span) =>
        match parse(span)
        case Some(v) => Ok(v)
        case None => Err(Unparsable)
  }

  /** A reply that is one ```json fenced array is read as that array. */
  lemma ParseFencedArray(a: string, parse: string -> Option<Json>)
    requires '`' !in a && |a| >= 2 && a[0] == '[' && a[|a| - 1] == ']'
    requires parse(a).Some?
    ensures ParseReply("```json\n" + a + "\n```", parse) == Ok(parse(a).value)
  {
    UnwrapFenced(a);
    TrimNoEdgeSpace(a);
  }

  /** `generateTestWithOpenAI(prompt, 5, "MCQ")`: the model is asked, under the system
      prompt for five MCQ items, about `prompt`; a failed call fails the generation, and
      an answer is read by `ParseReply`, missing content counting as "". */
  function GenerateTest(env: Env, k: nat, prompt: string): (r: Result<Json, string>)
    ensures env.ai(k, SystemPrompt(TestSize, "MCQ"), prompt).AiFailed? ==> r == Err(AiFailedText)
    ensures env.ai(k, SystemPrompt(TestSize, "MCQ"), prompt).AiAnswered? ==>
              r == ParseReply(env.ai(k, SystemPrompt(TestSize, "MCQ"), prompt).content.GetOr(""), env.parse)
    ensures r.Ok? ==> env.ai(k, SystemPrompt(TestSize, "MCQ"), prompt).AiAnswered?
  {
    match env.ai(k, SystemPrompt(TestSize, "MCQ"), prompt)
    case AiFailed => Err(AiFailedText)
    case AiAnswered(content) => ParseReply(content.GetOr(""), env.parse)
  }

  /** The test generated for the schedule at position `k` of the due list. */
  function TestFor(env: Env, k: nat, s: Schedule): Result<Json, string> {
    GenerateTest(env, k, BuildPrompt(RecentUploads(env, s.userId), TestSize))
  }

  // ----- one schedule's effects -----

  /** The row `insertScheduledTest` writes. */
  function NewRow(id: nat, s: Schedule, payload: Json, now: int): ScheduledTest {
    ScheduledTest(id, s.id, s.userId, None, payload, "pending", now)
  }

  function AfterInsert(t: Tables, s: Schedule, payload: Json, now: int): Tables {
    t.(scheduledTests := t.scheduledTests + [NewRow(t.nextTestId, s, payload, now)],
       nextTestId := t.nextTestId + 1)
  }

  /** A schedule row after `markScheduleRun`. */
  function Marked(s: Schedule, now: int): Schedule {
    s.(lastRun := Some(now), updatedAt := Some(now))
  }

  /** The update `markScheduleRun` sends: every row with the id is marked. */
  function MarkRun(rows: seq<Schedule>, id: nat, now: int): (r: seq<Schedule>)
    ensures |r| == |rows|
    ensures forall i :: 0 <= i < |rows| ==> r[i] == if rows[i].id == id then Marked(rows[i], now) else rows[i]
  {
    seq(|rows|, i requires 0 <= i < |rows| => if rows[i].id == id then Marked(rows[i], now) else rows[i])
  }

  /** A failed update is only logged. */
  function AfterMark(t: Tables, k: nat, id: nat, env: Env): Tables {
    if env.markOk(k) then t.(schedules := MarkRun(t.schedules, id, env.now)) else t
  }

  function IdText(id: Option<nat>): string {
    if id.None? then "null" else IntToString(id.value)
  }

  function CountText(payload: Json): string {
    if payload.JArr? then IntToString(|payload.items|) else "?"
  }

  const ReminderTitle: string := "\U{1F4DA} PrepMate Reminder:"
  const ReminderReady: string := "Your scheduled test is ready!"
  const ReminderClosing: string := "Log in to take your test."

  function ReminderMessage(id: Option<nat>, payload: Json): string {
    ReminderTitle + "\n" + ReminderReady + "\n" + ("Test ID: " + IdText(id)) + "\n"
    + ("Questions: " + CountText(payload)) + "\n" + ReminderClosing
  }

  /** Five lines joined by a separator. */
  lemma JoinFive(a: string, b: string, c: string, d: string, e: string, sep: char)
    ensures JoinWith([a, b, c, d, e], sep) == a + [sep] + b + [sep] + c + [sep] + d + [sep] + e
  {
    var parts := [a, b, c, d, e];
    assert parts[1..] == [b, c, d, e] && parts[2..] == [c, d, e] && parts[3..] == [d, e] && parts[4..] == [e];
    assert JoinWith([e], sep) == e;
    assert [d, e][1..] == [e];
    var j3 := JoinWith(parts[3..], sep);
    assert j3 == d + [sep] + JoinWith([e], sep);
    var j2 := JoinWith(parts[2..], sep);
    assert j2 == c + [sep] + j3;
    var j1 := JoinWith(parts[1..], sep);
    assert j1 == b + [sep] + j2;
    assert JoinWith(parts, sep) == a + [sep] + j1;
  }

  function ReminderParts(id: Option<nat>, payload: Json): seq<string> {
    [ReminderTitle, ReminderReady, "Test ID: " + IdText(id), "Questions: " + CountText(payload), ReminderClosing]
  }

  lemma ReminderIsJoin(id: Option<nat>, payload: Json)
    ensures ReminderMessage(id, payload) == JoinWith(ReminderParts(id, payload), '\n')
  {
    JoinFive(ReminderTitle, ReminderReady, "Test ID: " + IdText(id), "Questions: " + CountText(payload), ReminderClosing, '\n');
  }

  lemma ReminderPartsOneLine(id: Option<nat>, payload: Json)
    ensures forall i :: 0 <= i < 5 ==> '\n' !in ReminderParts(id, payload)[i]
  {
    var p := ReminderParts(id, payload);
    if id.Some? { NoNewlineInNumber(id.value); }
    if payload.JArr? { NoNewlineInNumber(|payload.items|); }
    ReminderConstantsOneLine();
    assert '\n' !in p[2] && '\n' !in p[3];
  }

  lemma ReminderConstantsOneLine()
    ensures '\n' !in ReminderTitle && '\n' !in ReminderReady && '\n' !in ReminderClosing
  {
  }

  /** The reminder reads as five lines, the third naming the test and the fourth the
      number of questions ("?" when the payload is not an array). */
  lemma ReminderLines(id: Option<nat>, payload: Json)
    ensures SplitOn(ReminderMessage(id, payload), '\n') ==
              [ReminderTitle, ReminderReady, "Test ID: " + IdText(id), "Questions: " + CountText(payload), ReminderClosing]
  {
    var p := ReminderParts(id, payload);
    ReminderPartsOneLine(id, payload);
    ReminderIsJoin(id, payload);
    SplitJoin(p, '\n');
  }

  /** `sendWhatsappReminder`: nothing happens without a client, a sender or a phone;
      otherwise the message is handed to the gateway and its outcome logged. */
  function AfterRemind(t: Tables, k: nat, userId: nat, id: Option<nat>, payload: Json, env: Env): Tables {
    if !env.twilioClient || env.twilioFrom.None? || env.twilioFrom.value == [] then t
    else
      var phone := env.phoneOf(userId);
      if phone.None? || phone.value == [] then t
      else
        var message := ReminderMessage(id, payload);
        var t1 := t.(outbox := t.outbox + [Outgoing(env.twilioFrom.value, "whatsapp:" + phone.value, message)]);
        var sent := env.send(k);
        var meta := if sent.Delivered? then SentAt(env.now) else SendError(sent.error);
        if env.logInsertOk(k) then
          t1.(reminderLogs := t1.reminderLogs + [ReminderLog(id, userId, "whatsapp", message, sent.Delivered?, meta)])
        else t1
  }

  /** Whether the schedule at position `k`, whose generation gave `test`, gets its test
      stored. */
  predicate Stored(test: Result<Json, string>, k: nat, env: Env) {
    test.Ok? && env.insert(k).InsertDone?
  }

  /** One pass of the loop body in `main` once the test has been generated (or has
      failed), the catch included: a failure to generate or to insert leaves the tables as
      they were. */
  function Step(t: Tables, k: nat, s: Schedule, test: Result<Json, string>, env: Env): Tables {
    match test
    case Err(_) => t
    case Ok(test) =>
      match env.insert(k)
      case InsertFailed => t
      case InsertDone(returnsId) =>
        var id := if returnsId then Some(t.nextTestId) else None;
        AfterRemind(AfterMark(AfterInsert(t, s, test, env.now), k, s.id, env), k, s.userId, id, test, env)
  }

  /** What generation gives for each due schedule. */
  function Outcomes(env: Env, due: seq<Schedule>): (r: seq<Result<Json, string>>)
    ensures |r| == |due|
  {
    seq(|due|, k requires 0 <= k < |due| => TestFor(env, k, due[k]))
  }

  lemma OutcomeAt(env: Env, due: seq<Schedule>, k: nat)
    requires k < |due|
    ensures Outcomes(env, due)[k] == TestFor(env, k, due[k])
  {
  }

  /** The tables after the first `n` due schedules, given what generation gave for each. */
  function RunUpTo(t: Tables, due: seq<Schedule>, outs: seq<Result<Json, string>>, env: Env, n: nat): Tables
    requires n <= |due| == |outs|
  {
    if n == 0 then t else Step(RunUpTo(t, due, outs, env, n - 1), n - 1, due[n - 1], outs[n - 1], env)
  }

  lemma RunUpToNext(t: Tables, due: seq<Schedule>, outs: seq<Result<Json, string>>, env: Env, n: nat)
    requires n < |due| == |outs|
    ensures RunUpTo(t, due, outs, env, n + 1) == Step(RunUpTo(t, due, outs, env, n), n, due[n], outs[n], env)
  {
  }

  /** The whole pass: a failed schedule query ends it before anything is written. */
  function MainSpec(t: Tables, env: Env): Tables {
    if env.scheduleQueryFails then t
    else
      var due := DueSchedules(t.schedules, env.now);
      RunUpTo(t, due, Outcomes(env, due), env, |due|)
  }

  // ----- what the pass guarantees -----

  /** A gateway client and a non-empty sender are configured, and the user has a non-empty
      phone number. */
  predicate CanRemind(userId: nat, env: Env) {
    env.twilioClient && env.twilioFrom.Some? && env.twilioFrom.value != []
    && env.phoneOf(userId).Some? && env.phoneOf(userId).value != []
  }

  /** The reminder step touches no table but the outbox and the logs. Without a gateway or
      a phone nothing changes at all; otherwise exactly the reminder text goes to the
      user's WhatsApp address, and exactly one log row follows when the log insert
      succeeds, recording whether the send was delivered. */
  lemma RemindEffect(t: Tables, k: nat, userId: nat, id: Option<nat>, payload: Json, env: Env)
    ensures var t' := AfterRemind(t, k, userId, id, payload, env);
            t'.schedules == t.schedules && t'.scheduledTests == t.scheduledTests &&
            t'.nextTestId == t.nextTestId &&
            t.reminderLogs <= t'.reminderLogs && |t'.reminderLogs| <= |t.reminderLogs| + 1
    ensures !CanRemind(userId, env) ==> AfterRemind(t, k, userId, id, payload, env) == t
    ensures CanRemind(userId, env) ==>
              AfterRemind(t, k, userId, id, payload, env).outbox ==
                t.outbox + [Outgoing(env.twilioFrom.value, "whatsapp:" + env.phoneOf(userId).value, ReminderMessage(id, payload))]
    ensures (|AfterRemind(t, k, userId, id, payload, env).reminderLogs| == |t.reminderLogs| + 1
             <==> CanRemind(userId, env) && env.logInsertOk(k))
    ensures CanRemind(userId, env) && env.logInsertOk(k) ==>
              var log := AfterRemind(t, k, userId, id, payload, env).reminderLogs[|t.reminderLogs|];
              log.scheduledTestId == id && log.userId == userId && log.channel == "whatsapp"
              && log.message == ReminderMessage(id, payload) && (log.success <==> env.send(k).Delivered?)
              && log.meta == (if env.send(k).Delivered? then SentAt(env.now) else SendError(env.send(k).error))
  {
  }

  /** One step adds at most one row, for its own schedule, pending, carrying the generated
      test and no upload reference; it adds a reminder log only when it added a row. A
      failure to generate or to insert changes nothing. */
  lemma StepRows(t: Tables, k: nat, s: Schedule, test: Result<Json, string>, env: Env)
    ensures var t' := Step(t, k, s, test, env);
            |t'.schedules| == |t.schedules| &&
            t.scheduledTests <= t'.scheduledTests &&
            t.reminderLogs <= t'.reminderLogs &&
            |t'.reminderLogs| <= |t.reminderLogs| + (|t'.scheduledTests| - |t.scheduledTests|) &&
            t.outbox <= t'.outbox &&
            |t'.outbox| <= |t.outbox| + (|t'.scheduledTests| - |t.scheduledTests|)
    ensures var t' := Step(t, k, s, test, env);
            if Stored(test, k, env) then
              |t'.scheduledTests| == |t.scheduledTests| + 1 &&
              t'.scheduledTests[|t.scheduledTests|] == NewRow(t.nextTestId, s, test.value, env.now)
            else t' == t
  {
    if Stored(test, k, env) {
      var t1 := AfterInsert(t, s, test.value, env.now);
      var t2 := AfterMark(t1, k, s.id, env);
      var id := if env.insert(k).returnsId then Some(t.nextTestId) else None;
      RemindEffect(t2, k, s.userId, id, test.value, env);
    }
  }

  /** One step changes schedules only when it stored a test, and then only by marking the
      rows with that schedule's id. */
  lemma StepSchedules(t: Tables, k: nat, s: Schedule, test: Result<Json, string>, env: Env)
    ensures var t' := Step(t, k, s, test, env);
            |t'.schedules| == |t.schedules| &&
            forall i :: 0 <= i < |t.schedules| ==>
              t'.schedules[i] == t.schedules[i] ||
              (Stored(test, k, env) && t.schedules[i].id == s.id &&
               t'.schedules[i] == Marked(t.schedules[i], env.now))
  {
    if Stored(test, k, env) {
      var t1 := AfterInsert(t, s, test.value, env.now);
      var t2 := AfterMark(t1, k, s.id, env);
      var id := if env.insert(k).returnsId then Some(t.nextTestId) else None;
      RemindEffect(t2, k, s.userId, id, test.value, env);
    }
  }

  /** Ids of a list of schedules, and the schedule ids of a list of stored tests. */
  function ScheduleIds(due: seq<Schedule>): (r: seq<nat>)
    ensures |r| == |due|
  {
    seq(|due|, i requires 0 <= i < |due| => due[i].id)
  }

  function RowScheduleIds(rows: seq<ScheduledTest>): (r: seq<nat>)
    ensures |r| == |rows|
  {
    seq(|rows|, i requires 0 <= i < |rows| => rows[i].scheduleId)
  }

  /** The ids of the first `n` due schedules whose test was generated and stored, in
      order. */
  function StoredIds(due: seq<Schedule>, outs: seq<Result<Json, string>>, env: Env, n: nat): (r: seq<nat>)
    requires n <= |due| == |outs|
    ensures |r| <= n
  {
    if n == 0 then []
    else StoredIds(due, outs, env, n - 1) + (if Stored(outs[n - 1], n - 1, env) then [due[n - 1].id] else [])
  }

  /** Each due schedule contributes its id at most once. */
  lemma {:induction false} StoredIdsWithin(due: seq<Schedule>, outs: seq<Result<Json, string>>, env: Env, n: nat)
    requires n <= |due| == |outs|
    ensures multiset(StoredIds(due, outs, env, n)) <= multiset(ScheduleIds(due[..n]))
  {
    if n > 0 {
      StoredIdsWithin(due, outs, env, n - 1);
      DueIdsStep(due, n);
    }
  }

  lemma DueIdsStep(due: seq<Schedule>, n: nat)
    requires 0 < n <= |due|
    ensures ScheduleIds(due[..n]) == ScheduleIds(due[..n - 1]) + [due[n - 1].id]
  {
    assert due[..n] == due[..n - 1] + [due[n - 1]];
  }

  lemma ExtendedRowIds(prevRows: seq<ScheduledTest>, curRows: seq<ScheduledTest>, m: nat)
    requires m <= |prevRows| && prevRows <= curRows && |curRows| == |prevRows| + 1
    ensures RowScheduleIds(curRows[m..]) == RowScheduleIds(prevRows[m..]) + [curRows[|prevRows|].scheduleId]
  {
    assert curRows[m..] == prevRows[m..] + [curRows[|prevRows|]];
  }

  /** At most one stored test per due schedule, in the order of the due list: the pass
      only appends rows, and the schedule ids of the new rows are exactly the ids of the
      due schedules whose test was stored, hence a sub-multiset of the due schedules' ids. */
  lemma {:induction false} RunRowsPerSchedule(t: Tables, due: seq<Schedule>, outs: seq<Result<Json, string>>, env: Env, n: nat)
    requires n <= |due| == |outs|
    ensures var t' := RunUpTo(t, due, outs, env, n);
            t.scheduledTests <= t'.scheduledTests &&
            RowScheduleIds(t'.scheduledTests[|t.scheduledTests|..]) == StoredIds(due, outs, env, n)
    ensures var t' := RunUpTo(t, due, outs, env, n);
            multiset(RowScheduleIds(t'.scheduledTests[|t.scheduledTests|..])) <= multiset(ScheduleIds(due[..n]))
  {
    var m := |t.scheduledTests|;
    if n > 0 {
      var prev := RunUpTo(t, due, outs, env, n - 1);
      var cur := RunUpTo(t, due, outs, env, n);
      RunRowsPerSchedule(t, due, outs, env, n - 1);
      StepRows(prev, n - 1, due[n - 1], outs[n - 1], env);
      if Stored(outs[n - 1], n - 1, env) {
        ExtendedRowIds(prev.scheduledTests, cur.scheduledTests, m);
        assert cur.scheduledTests[|prev.scheduledTests|].scheduleId == due[n - 1].id;
      }
      assert RowScheduleIds(cur.scheduledTests[m..]) == StoredIds(due, outs, env, n);
    }
    StoredIdsWithin(due, outs, env, n);
  }

  /** Reminders are sent and logged only for stored tests: the pass only appends to the
      outbox and the logs, and adds no more messages and no more logs than rows. */
  lemma {:induction false} RunRemindersFollowInserts(t: Tables, due: seq<Schedule>, outs: seq<Result<Json, string>>, env: Env, n: nat)
    requires n <= |due| == |outs|
    ensures var t' := RunUpTo(t, due, outs, env, n);
            t.reminderLogs <= t'.reminderLogs && |t.scheduledTests| <= |t'.scheduledTests| &&
            |t'.reminderLogs| - |t.reminderLogs| <= |t'.scheduledTests| - |t.scheduledTests|
    ensures var t' := RunUpTo(t, due, outs, env, n);
            t.outbox <= t'.outbox &&
            |t'.outbox| - |t.outbox| <= |t'.scheduledTests| - |t.scheduledTests|
  {
    if n > 0 {
      RunRemindersFollowInserts(t, due, outs, env, n - 1);
      StepRows(RunUpTo(t, due, outs, env, n - 1), n - 1, due[n - 1], outs[n - 1], env);
    }
  }

  /** `last_run` moves only for a schedule whose test was generated and stored during the
      pass, and then it becomes the pass's `now`. */
  lemma {:induction false} RunLastRunOnlyAfterInsert(t: Tables, due: seq<Schedule>, outs: seq<Result<Json, string>>, env: Env, n: nat)
    requires n <= |due| == |outs|
    ensures var t' := RunUpTo(t, due, outs, env, n);
            |t'.schedules| == |t.schedules| &&
            forall i :: 0 <= i < |t.schedules| ==>
              t'.schedules[i] == t.schedules[i] ||
              (t'.schedules[i] == Marked(t.schedules[i], env.now) &&
               exists k :: 0 <= k < n && due[k].id == t.schedules[i].id && Stored(outs[k], k, env))
  {
    if n > 0 {
      var prev := RunUpTo(t, due, outs, env, n - 1);
      var cur := RunUpTo(t, due, outs, env, n);
      RunLastRunOnlyAfterInsert(t, due, outs, env, n - 1);
      StepSchedules(prev, n - 1, due[n - 1], outs[n - 1], env);
      forall i | 0 <= i < |t.schedules|
        ensures cur.schedules[i] == t.schedules[i] ||
                (cur.schedules[i] == Marked(t.schedules[i], env.now) &&
                 exists k :: 0 <= k < n && due[k].id == t.schedules[i].id && Stored(outs[k], k, env))
      {
        if cur.schedules[i] != prev.schedules[i] {
          assert Stored(outs[n - 1], n - 1, env) && prev.schedules[i].id == due[n - 1].id;
          assert cur.schedules[i] == Marked(prev.schedules[i], env.now);
          assert prev.schedules[i].id == t.schedules[i].id;
        }
      }
    }
  }

  /** The outcome `main` reports. */
  datatype RunOutcome = Aborted | NothingDue | Processed(count: nat)

  /** The tables, held by the pass and updated in place. */
  class Backend {
    var schedules: seq<Schedule>
    var scheduledTests: seq<ScheduledTest>
    var reminderLogs: seq<ReminderLog>
    var outbox: seq<Outgoing>
    var nextTestId: nat

    constructor (t: Tables)
      ensures Snapshot() == t
    {
      schedules := t.schedules;
      scheduledTests := t.scheduledTests;
      reminderLogs := t.reminderLogs;
      outbox := t.outbox;
      nextTestId := t.nextTestId;
    }

    function Snapshot(): Tables
      reads this
    {
      Tables(schedules, scheduledTests, reminderLogs, outbox, nextTestId)
    }

    /** `fetchDueSchedules`: the query error is thrown; otherwise the due rows in fetch
        order. */
    function FetchDueSchedules(env: Env): (r: Result<seq<Schedule>, string>)
      reads this
      ensures r.Err? <==> env.scheduleQueryFails
      ensures r.Ok? ==> forall s :: s in r.value <==> s in schedules && IsDue(s, env.now)
    {
      if env.scheduleQueryFails then Err("schedule query failed") else Ok(DueSchedules(schedules, env.now))
    }

    /** `insertScheduledTest`: one pending row, or the error thrown. */
    method InsertScheduledTest(k: nat, s: Schedule, payload: Json, env: Env) returns (r: Result<Option<nat>, string>)
      modifies this
      ensures r.Err? <==> env.insert(k).InsertFailed?
      ensures r.Err? ==> Snapshot() == old(Snapshot())
      ensures r.Ok? ==> Snapshot() == AfterInsert(old(Snapshot()), s, payload, env.now)
      ensures r.Ok? ==> r.value == if env.insert(k).returnsId then Some(old(nextTestId)) else None
    {
      if env.insert(k).InsertFailed? {
        return Err("Failed to insert scheduled_tests");
      }
      var id := nextTestId;
      scheduledTests := scheduledTests + [NewRow(id, s, payload, env.now)];
      nextTestId := nextTestId + 1;
      r := Ok(if env.insert(k).returnsId then Some(id) else None);
    }

    /** `markScheduleRun`. */
    method MarkScheduleRun(k: nat, id: nat, env: Env)
      modifies this
      ensures Snapshot() == AfterMark(old(Snapshot()), k, id, env)
    {
      if env.markOk(k) {
        schedules := MarkRun(schedules, id, env.now);
      }
    }

    /** `sendWhatsappReminder`. */
    method SendWhatsappReminder(k: nat, userId: nat, id: Option<nat>, payload: Json, env: Env)
      modifies this
      ensures Snapshot() == AfterRemind(old(Snapshot()), k, userId, id, payload, env)
    {
      if !env.twilioClient || env.twilioFrom.None? || env.twilioFrom.value == [] {
        return;
      }
      var phone := env.phoneOf(userId);
      if phone.None? || phone.value == [] {
        return;
      }
      var message := ReminderMessage(id, payload);
      outbox := outbox + [Outgoing(env.twilioFrom.value, "whatsapp:" + phone.value, message)];
      var sent := env.send(k);
      var meta := if sent.Delivered? then SentAt(env.now) else SendError(sent.error);
      if env.logInsertOk(k) {
        reminderLogs := reminderLogs + [ReminderLog(id, userId, "whatsapp", message, sent.Delivered?, meta)];
      }
    }

    /** The part of an iteration of the loop in `main` that asks for the test: the
        recent uploads, the prompt built from them, the model's parsed reply. */
    method GenerateFor(k: nat, due: seq<Schedule>, env: Env) returns (test: Result<Json, string>)
      requires k < |due|
      ensures test == Outcomes(env, due)[k]
    {
      var uploads := RecentUploads(env, due[k].userId);
      var prompt := BuildPrompt(uploads, TestSize);
      test := GenerateTest(env, k, prompt);
      OutcomeAt(env, due, k);
    }

    /** The part of an iteration of the loop in `main` that writes: store the generated
        test, mark the schedule, send the reminder. A failure to generate or to insert
        ends the iteration, as its catch does. */
    method StoreAndRemind(k: nat, s: Schedule, test: Result<Json, string>, env: Env)
      modifies this
      ensures Snapshot() == Step(old(Snapshot()), k, s, test, env)
    {
      if test.Err? {
        return;
      }
      var id := InsertScheduledTest(k, s, test.value, env);
      if id.Err? {
        return;
      }
      MarkScheduleRun(k, s.id, env);
      SendWhatsappReminder(k, s.userId, id.value, test.value, env);
    }

    /** The `for` loop of `main` over the due schedules. */
    method ProcessAll(due: seq<Schedule>, env: Env)
      modifies this
      ensures Snapshot() == RunUpTo(old(Snapshot()), due, Outcomes(env, due), env, |due|)
    {
      ghost var t0 := Snapshot();
      ghost var outs := Outcomes(env, due);
      var k := 0;
      while k < |due|
        invariant 0 <= k <= |due|
        invariant Snapshot() == RunUpTo(t0, due, outs, env, k)
      {
        var test := GenerateFor(k, due, env);
        RunUpToNext(t0, due, outs, env, k);
        StoreAndRemind(k, due[k], test, env);
        k := k + 1;
      }
    }

    /** `main`. */
    method RunMain(env: Env) returns (outcome: RunOutcome)
      modifies this
      ensures Snapshot() == MainSpec(old(Snapshot()), env)
      ensures outcome == Aborted <==> env.scheduleQueryFails
      ensures outcome == NothingDue <==> !env.scheduleQueryFails && DueSchedules(old(schedules), env.now) == []
      ensures outcome.Processed? ==> outcome.count == |DueSchedules(old(schedules), env.now)|
    {
      var fetched := FetchDueSchedules(env);
      if fetched.Err? {
        return Aborted;
      }
      var due := fetched.value;
      assert due == DueSchedules(schedules, env.now);
      if |due| == 0 {
        return NothingDue;
      }
      ProcessAll(due, env);
      outcome := Processed(|due|);
    }
  }
}
