/** The handler of pages/api/generate-test.js: it checks the request, asks the language
    model for questions and returns the JSON it finds in the reply, wrapping a single object
    in a list. The reply (or the failure of the call) is an input. */
module GenerateTestApi {
  import opened Wrappers
  import opened JsonValue
  import opened Extract

  /** The outcome of the completion call: it threw, or it gave the content of the first
      choice (absent or null content reads as ""). */
  datatype Completion = Threw | Content(content: Option<string>)

  /** The replies of the handler. `NoJson` and `Unparsable` are 200 replies with
      `questions: null` and `parseError: true`. */
  datatype TestReply =
    | Generated(questions: seq<Json>)
    | NoJson(raw: string)
    | Unparsable(raw: string, extracted: string)
    | Failed(status: nat, error: string)

  const MethodNotAllowed := "Method not allowed"
  const MissingFields := "Missing fields. Required: text, type, count"
  const GenerationFailed := "Failed to generate test"

  /** `completion.choices?.[0]?.message?.content ?? ""`. */
  function RawContent(c: Option<string>): string {
    if c.Some? then c.value else []
  }

  /** The three request fields are all truthy (`req.body ?? {}` has none when the body is
      absent). */
  predicate HasFields(body: Option<Json>) {
    body.Some? && Present(FieldOpt(body, "text")) && Present(FieldOpt(body, "type"))
    && Present(FieldOpt(body, "count"))
  }

  /** The handler. A parsed array is returned as it is, any other parsed value as a list of
      one; a reply without a bracketed span, or whose span does not parse, is handed back
      for debugging with status 200. */
  function Handle(httpMethod: string, body: Option<Json>, completion: Completion, parse: string -> Option<Json>)
    : (r: TestReply)
    ensures httpMethod != "POST" ==> r == Failed(405, MethodNotAllowed)
    ensures httpMethod == "POST" && !HasFields(body) ==> r == Failed(400, MissingFields)
    ensures httpMethod == "POST" && HasFields(body) ==> (r.Failed? <==> completion.Threw?)
    ensures r.Failed? ==> r.status in {400, 405, 500}
    ensures r.NoJson? || r.Unparsable? ==> completion.Content? && r.raw == RawContent(completion.content)
    ensures r.NoJson? ==> ExtractFirstJson(r.raw).None?
    ensures r.Unparsable? ==> ExtractFirstJson(r.raw) == Some(r.extracted) && parse(r.extracted).None?
    ensures httpMethod == "POST" && HasFields(body) && completion.Content? ==>
              var span := ExtractFirstJson(RawContent(completion.content));
              (r.NoJson? <==> span.None?) && (r.Unparsable? <==> span.Some? && parse(span.value).None?)
    ensures r.Generated? ==>
              completion.Content? &&
              var span := ExtractFirstJson(RawContent(completion.content));
              span.Some? && parse(span.value).Some? &&
              (if parse(span.value).value.JArr? then r.questions == parse(span.value).value.items
               else r.questions == [parse(span.value).value])
  {
    if httpMethod != "POST" then Failed(405, MethodNotAllowed)
    else if !HasFields(body) then Failed(400, MissingFields)
    else match completion
      case Threw => Failed(500, GenerationFailed)
      case Content(c) =>
        var raw := RawContent(c);
        match ExtractFirstJson(raw)
        case None => NoJson(raw)
        case Some(jsonText) =>
          match parse(jsonText)
          case None => Unparsable(raw, jsonText)
          case Some(JArr(items)) => Generated(items)
          case Some(v) => Generated([v])
  }

  /** A reply that is a fenced JSON array comes back as that array's items. */
  lemma FencedArrayReply(body: Json, a: string, items: seq<Json>, parse: string -> Option<Json>)
    requires HasFields(Some(body))
    requires '`' !in a && |a| >= 2 && a[0] == '[' && a[|a| - 1] == ']'
    requires parse(a) == Some(JArr(items))
    ensures Handle("POST", Some(body), Content(Some("```json\n" + a + "\n```")), parse) == Generated(items)
  {
    ExtractFencedArray(a);
  }
}
