/** The question generator behind pages/api/generate-openai.js: the request is read into a
    text, a count and a kind; the language model's reply, when there is one, is pulled out
    as a JSON array and each item normalised; otherwise a local generator builds the
    questions from the sentences of the text. The reply of the model is an input here, and
    so is every draw of `Math.random`. */
module GenerateOpenAi {
  import opened Wrappers
  import opened Strings
  import opened JsonValue
  import opened Extract

  /** A question as the endpoint returns it. */
  datatype Question =
    | Mcq(question: string, options: seq<string>, answer: string)
    | Qna(question: string, answer: string)

  const Letters: seq<string> := ["A", "B", "C", "D"]

  /** What every returned question promises a client: four options and an answer letter
      among A to D for a multiple-choice item, a non-empty answer for a short-answer item. */
  predicate WellFormed(q: Question) {
    match q
    case Mcq(_, options, answer) => |options| == 4 && answer in Letters
    case Qna(_, answer) => answer != []
  }

  function Min(a: int, b: int): int { if a < b then a else b }

  /** `Math.max(2, Math.min(20, n))`. */
  function Clamp(n: int): (r: int)
    ensures 2 <= r <= 20
    ensures 2 <= n <= 20 ==> r == n
    ensures n < 2 ==> r == 2
    ensures n > 20 ==> r == 20
  {
    if n < 2 then 2 else if n > 20 then 20 else n
  }

  /** `s.slice(0, n)`. */
  function Cut(s: string, n: nat): (r: string)
    ensures |r| == Min(|s|, n) && r == s[..|r|]
  {
    if |s| <= n then s else s[..n]
  }

  // ---------------------------------------------------------------------------
  // normalizeItem

  const TypeError := "toUpperCase is not a function"

  /** The upper-cased kind of a model item, `(item.type || (item.options ? "MCQ" : "QNA"))`;
      a truthy `type` that is not a string has no `toUpperCase` and throws. */
  function ItemKind(item: Json): Result<string, string> {
    var t := Field(item, "type");
    if Present(t) then
      if t.value.JStr? then Ok(ToUpper(t.value.s)) else Err(TypeError)
    else if Present(Field(item, "options")) then Ok("MCQ")
    else Ok("QNA")
  }

  /** `Array.isArray(item.options) ? item.options.map(String) : []`. */
  function RawOptions(item: Json): seq<string> {
    var o := Field(item, "options");
    if IsArray(o) then
      var xs := o.value.items;
      seq(|xs|, i requires 0 <= i < |xs| => ToJsString(xs[i]))
    else []
  }

  /** The filler pushed as the `n`-th option. */
  function Filler(n: nat): string {
    "Option " + IntToString(n)
  }

  /** The options after filling up to four and keeping the first four: every slot keeps
      the model's option when there is one and otherwise holds the filler for its position. */
  function PaddedOptions(raw: seq<string>): (r: seq<string>)
    ensures |r| == 4
    ensures forall i :: 0 <= i < 4 ==> r[i] == if i < |raw| then raw[i] else Filler(i + 1)
  {
    if |raw| >= 4 then raw[..4]
    else raw + seq(4 - |raw|, k requires 0 <= k < 4 - |raw| => Filler(|raw| + k + 1))
  }

  /** `String(item.answer || "").trim().toUpperCase()` if it is one of A to D, else "A". */
  function AnswerLetter(item: Json): (r: string)
    ensures r in Letters
    ensures ToUpper(Trim(TextOr(Field(item, "answer")))) in Letters ==> r == ToUpper(Trim(TextOr(Field(item, "answer"))))
    ensures ToUpper(Trim(TextOr(Field(item, "answer")))) !in Letters ==> r == "A"
  {
    var raw := ToUpper(Trim(TextOr(Field(item, "answer"))));
    if raw in Letters then raw else "A"
  }

  /** `String(item.answer || "").trim() || "(answer)"`. */
  function ShortAnswer(item: Json): (r: string)
    ensures r != []
    ensures Trim(TextOr(Field(item, "answer"))) != [] ==> r == Trim(TextOr(Field(item, "answer")))
  {
    var a := Trim(TextOr(Field(item, "answer")));
    if a == [] then "(answer)" else a
  }

  /** `normalizeItem(item)`: `Ok(None)` is its `null`, `Err` the exception it throws. */
  function NormalizedItem(item: Json): (r: Result<Option<Question>, string>)
    ensures !(item.JObj? || item.JArr?) ==> r == Ok(None)
    ensures (item.JObj? || item.JArr?) ==> (r.Err? <==> ItemKind(item).Err?) && (r.Ok? ==> r.value.Some?)
    ensures r.Err? ==> r.error == TypeError
    ensures r.Ok? && r.value.Some? ==> WellFormed(r.value.value)
    ensures r.Ok? && r.value.Some? ==> r.value.value.question == Trim(TextOr(Field(item, "question")))
    ensures r.Ok? && r.value.Some? ==> (r.value.value.Mcq? <==> ItemKind(item) == Ok("MCQ"))
    ensures r.Ok? && r.value.Some? && r.value.value.Mcq? ==> r.value.value.options == PaddedOptions(RawOptions(item))
    ensures r.Ok? && r.value.Some? && r.value.value.Mcq? ==> r.value.value.answer == AnswerLetter(item)
    ensures r.Ok? && r.value.Some? && r.value.value.Qna? ==> r.value.value.answer == ShortAnswer(item)
  {
    if !(item.JObj? || item.JArr?) then Ok(None)
    else match ItemKind(item)
      case Err(e) => Err(e)
      case Ok(kind) =>
        var q := Trim(TextOr(Field(item, "question")));
        if kind == "MCQ" then Ok(Some(Mcq(q, PaddedOptions(RawOptions(item)), AnswerLetter(item))))
        else Ok(Some(Qna(q, ShortAnswer(item))))
  }

  /** The filling loop of `normalizeItem` and the cut to four options. */
  method FillOptions(raw: seq<string>) returns (options: seq<string>)
    ensures options == PaddedOptions(raw)
  {
    options := raw;
    while |options| < 4
      invariant |raw| <= |options| && (|raw| < 4 ==> |options| <= 4)
      invariant options[..|raw|] == raw
      invariant forall k :: |raw| <= k < |options| ==> options[k] == Filler(k + 1)
      decreases 4 - |options|
    {
      options := options + [Filler(|options| + 1)];
    }
    assert options[..4] == PaddedOptions(raw) by {
      forall k | 0 <= k < 4 ensures options[..4][k] == PaddedOptions(raw)[k] {
        if k < |raw| { assert options[k] == options[..|raw|][k]; }
      }
    }
    options := options[..4];
  }

  /** `normalizeItem`, following its statements (the option array is built up and
      padded step by step); its ensures ties it to the function `NormalizedItem`, on which the
      properties of the handler are proved. */
  method NormalizeItem(item: Json) returns (r: Result<Option<Question>, string>)
    ensures r == NormalizedItem(item)
  {
    if !(item.JObj? || item.JArr?) {
      return Ok(None);
    }
    var kind := ItemKind(item);
    if kind.Err? {
      return Err(kind.error);
    }
    var q := Trim(TextOr(Field(item, "question")));
    if kind.value == "MCQ" {
      var options := FillOptions(RawOptions(item));
      return Ok(Some(Mcq(q, options, AnswerLetter(item))));
    }
    return Ok(Some(Qna(q, ShortAnswer(item))));
  }

  /** The items kept from `items.map(normalizeItem).filter(Boolean)`, or the exception of
      the first item that throws. */
  function NormalizedItems(items: seq<Json>): (r: Result<seq<Question>, string>)
    ensures r.Err? ==> r.error == TypeError
    ensures r.Ok? ==> |r.value| <= |items| && forall k :: 0 <= k < |r.value| ==> WellFormed(r.value[k])
    decreases |items|
  {
    if items == [] then Ok([])
    else
      match NormalizedItems(items[..|items| - 1])
      case Err(e) => Err(e)
      case Ok(prev) =>
        match NormalizedItem(items[|items| - 1])
        case Err(e) => Err(e)
        case Ok(None) => Ok(prev)
        case Ok(Some(q)) => AppendWellFormed(prev, q); Ok(prev + [q])
  }

  lemma AppendWellFormed(prev: seq<Question>, q: Question)
    requires WellFormed(q) && forall k :: 0 <= k < |prev| ==> WellFormed(prev[k])
    ensures forall k :: 0 <= k < |prev + [q]| ==> WellFormed((prev + [q])[k])
  {
  }

  /** The whole batch fails exactly when some item throws. */
  lemma {:induction false} NormalizedItemsFail(items: seq<Json>)
    ensures NormalizedItems(items).Err? <==> exists i :: 0 <= i < |items| && NormalizedItem(items[i]).Err?
    decreases |items|
  {
    if items != [] {
      var init := items[..|items| - 1];
      NormalizedItemsFail(init);
      assert forall i :: 0 <= i < |init| ==> init[i] == items[i];
    }
  }

  /** Every item is an object or an array, which `typeof` calls "object". */
  predicate AllRecords(items: seq<Json>) {
    forall i :: 0 <= i < |items| ==> items[i].JObj? || items[i].JArr?
  }

  /** Nothing is dropped exactly when every item is an object or an array. */
  lemma {:induction false} NormalizedItemsKeepAll(items: seq<Json>)
    requires NormalizedItems(items).Ok?
    ensures |NormalizedItems(items).value| == |items| <==> AllRecords(items)
    decreases |items|
  {
    if items != [] {
      var init := items[..|items| - 1];
      var last := items[|items| - 1];
      var prev := NormalizedItems(init);
      var one := NormalizedItem(last);
      assert prev.Ok? && one.Ok?;
      NormalizedItemsKeepAll(init);
      assert |NormalizedItems(items).value| == |prev.value| + if one.value.Some? then 1 else 0;
      assert one.value.Some? <==> last.JObj? || last.JArr?;
      AllRecordsSnoc(items);
    }
  }

  lemma AllRecordsSnoc(items: seq<Json>)
    requires items != []
    ensures AllRecords(items) <==>
              AllRecords(items[..|items| - 1]) && (items[|items| - 1].JObj? || items[|items| - 1].JArr?)
  {
    var init := items[..|items| - 1];
    if AllRecords(init) && (items[|items| - 1].JObj? || items[|items| - 1].JArr?) {
      forall i | 0 <= i < |items| ensures items[i].JObj? || items[i].JArr? {
        if i < |init| { assert items[i] == init[i]; }
      }
    }
  }

  /** The map and filter over the model's items. */
  method NormalizeAll(items: seq<Json>) returns (r: Result<seq<Question>, string>)
    ensures r == NormalizedItems(items)
  {
    var kept: seq<Question> := [];
    var i := 0;
    while i < |items|
      invariant 0 <= i <= |items|
      invariant NormalizedItems(items[..i]) == Ok(kept)
    {
      assert items[..i + 1][..i] == items[..i];
      var n := NormalizeItem(items[i]);
      if n.Err? {
        NormalizedItemsFail(items);
        return Err(n.error);
      }
      if n.value.Some? {
        kept := kept + [n.value.value];
      }
      i := i + 1;
    }
    assert items[..i] == items;
    return Ok(kept);
  }

  // ---------------------------------------------------------------------------
  // The reply of the language model

  /** `extractJSON`: nothing for an empty reply; else the greedy `[ ... ]` span when it
      parses; else the reply with every fence and fence tag deleted, trimmed and parsed. */
  function ExtractReplyJson(text: string, parse: string -> Option<Json>): (r: Option<Json>)
    ensures text == [] ==> r.None?
    ensures text != [] && BracketSpan(text, '[', ']').Some? && parse(BracketSpan(text, '[', ']').value).Some? ==>
              r == parse(BracketSpan(text, '[', ']').value)
    ensures text != [] && BracketSpan(text, '[', ']').None? ==> r == parse(Trim(RemoveFences(RemoveTaggedFences(text))))
    ensures text != [] && BracketSpan(text, '[', ']').Some? && parse(BracketSpan(text, '[', ']').value).None? ==>
              r == parse(Trim(RemoveFences(RemoveTaggedFences(text))))
  {
    if text == [] then None
    else
      var fromSpan := match BracketSpan(text, '[', ']')
        case Some(span) => parse(span)
        case None => None;
      if fromSpan.Some? then fromSpan
      else parse(Trim(RemoveFences(RemoveTaggedFences(text))))
  }

  /** A `json`-fenced array in the reply is parsed on its own, whatever surrounds it. */
  lemma ExtractFencedArrayReply(a: string, parse: string -> Option<Json>)
    requires |a| >= 2 && a[0] == '[' && a[|a| - 1] == ']'
    requires parse(a).Some?
    ensures ExtractReplyJson("```json\n" + a + "\n```", parse) == parse(a)
  {
    BracketSpanOfPadded("```json\n", a, "\n```", '[', ']');
  }

  /** Fencing adds no opening bracket. */
  lemma NoBracketFenced(o: string)
    requires '[' !in o
    ensures '[' !in "```json\n" + o + "\n```"
  {
    var s := "```json\n" + o + "\n```";
    forall k | 0 <= k < |s| ensures s[k] != '[' {
      if 8 <= k < 8 + |o| { assert s[k] == o[k - 8]; }
    }
  }

  /** A `json`-fenced object without brackets is read through the cleaning path: the fences
      and the tag are deleted and the surrounding line breaks trimmed away. */
  lemma ExtractFencedObjectReply(o: string, parse: string -> Option<Json>)
    requires NoFence(o) && '[' !in o && o != [] && !IsSpace(o[0]) && !IsSpace(o[|o| - 1])
    ensures ExtractReplyJson("```json\n" + o + "\n```", parse) == parse(o)
  {
    ObjectReplyCleaned(o, parse);
    PaddedTrimsTo(o);
  }

  /** A text without white space at its ends is what trimming it between two line breaks
      gives. */
  lemma PaddedTrimsTo(o: string)
    requires o != [] && !IsSpace(o[0]) && !IsSpace(o[|o| - 1])
    ensures Trim("\n" + o + "\n") == o
  {
    TrimOfPadded("\n", o, "\n");
    TrimNoEdgeSpace(o);
  }

  /** Without brackets, the fenced object is cleaned down to its body between two line
      breaks. */
  lemma ObjectReplyCleaned(o: string, parse: string -> Option<Json>)
    requires NoFence(o) && '[' !in o
    ensures ExtractReplyJson("```json\n" + o + "\n```", parse) == parse(Trim("\n" + o + "\n"))
  {
    NoBracketFenced(o);
    RemoveTaggedFencesOfFenced(o);
  }

  // ---------------------------------------------------------------------------
  // localGenerate

  /** `text.replace(/\n+/g, " ")`: every run of line feeds becomes one space. */
  function CollapseNewlines(s: string): (r: string)
    ensures '\n' !in r
    ensures |r| <= |s| && (r == [] <==> s == [])
    ensures '\n' !in s ==> r == s
    decreases |s|
  {
    if s == [] then []
    else if s[0] == '\n' then [' '] + CollapseNewlines(SkipNewlines(s[1..]))
    else [s[0]] + CollapseNewlines(s[1..])
  }

  /** `s` without its leading line feeds. */
  function SkipNewlines(s: string): (r: string)
    ensures |r| <= |s| && (r == [] || r[0] != '\n')
    decreases |s|
  {
    if s != [] && s[0] == '\n' then SkipNewlines(s[1..]) else s
  }

  predicate IsStop(c: char) {
    c == '.' || c == '?' || c == '!'
  }

  /** Some white space right after a sentence stop starts at `p`. */
  predicate BreakAt(s: string, p: int) {
    1 <= p < |s| && IsStop(s[p - 1]) && IsSpace(s[p])
  }

  /** The first break at or after `from`. */
  function FirstBreakFrom(s: string, from: nat): (r: Option<nat>)
    requires from >= 1
    ensures r.Some? ==> from <= r.value && BreakAt(s, r.value)
    ensures r.Some? ==> forall p :: from <= p < r.value ==> !BreakAt(s, p)
    ensures r.None? ==> forall p :: from <= p ==> !BreakAt(s, p)
    decreases |s| - from
  {
    if from >= |s| then None
    else if BreakAt(s, from) then Some(from)
    else FirstBreakFrom(s, from + 1)
  }

  /** `s.split(/(?<=[.?!])\s+/)`: cut at every white-space run that follows a stop,
      dropping the run. Each part is a piece of `s`, the first one starts where `s` does. */
  function SplitAfterStops(s: string): (parts: seq<string>)
    ensures |parts| >= 1
    ensures s != [] ==> parts[0] != [] && |parts[0]| <= |s| && parts[0] == s[..|parts[0]|]
    ensures '\n' !in s ==> forall x :: x in parts ==> '\n' !in x
    ensures (forall p :: 1 <= p ==> !BreakAt(s, p)) ==> parts == [s]
    decreases |s|
  {
    match FirstBreakFrom(s, 1)
    case None => [s]
    case Some(p) =>
      var e := SpaceRunEnd(s, p);
      [s[..p]] + SplitAfterStops(s[e..])
  }

  /** `.filter(Boolean)` on strings: the non-empty parts, in order. */
  function NonEmpty(parts: seq<string>): (r: seq<string>)
    ensures |r| <= |parts|
    ensures forall k :: 0 <= k < |r| ==> r[k] != []
    ensures forall x :: x in r <==> x in parts && x != []
    ensures parts != [] && parts[0] != [] ==> r != [] && r[0] == parts[0]
    decreases |parts|
  {
    if parts == [] then []
    else if parts[0] == [] then NonEmpty(parts[1..])
    else [parts[0]] + NonEmpty(parts[1..])
  }

  /** The sentences of the study text: there is at least one exactly when the text is not
      empty, none is empty and none holds a line feed. */
  function Sentences(text: string): (r: seq<string>)
    ensures r == [] <==> text == []
    ensures forall k :: 0 <= k < |r| ==> r[k] != [] && '\n' !in r[k]
  {
    NonEmpty(SplitAfterStops(CollapseNewlines(text)))
  }

  /** A one-line text without a stop followed by white space is a single sentence. */
  lemma SingleSentence(text: string)
    requires text != [] && '\n' !in text
    requires forall p :: 1 <= p ==> !BreakAt(text, p)
    ensures Sentences(text) == [text]
  {
  }

  /** `Math.max(2, Math.min(20, Number(count || 5)))` for a numeric count. */
  function LocalTotal(count: int): (r: int)
    ensures 2 <= r <= 20
    ensures count == 0 ==> r == 5
    ensures 2 <= count <= 20 ==> r == count
    ensures count != 0 && count < 2 ==> r == 2
    ensures count > 20 ==> r == 20
  {
    Clamp(if count == 0 then 5 else count)
  }

  const McqLabel := "Generated MCQ "
  const QnaLabel := "Generated QnA "

  /** `sentences[i % sentences.length] || placeholder + (i + 1)`: with no sentence the index is
      NaN and the numbered placeholder stands in. */
  function ItemText(sentences: seq<string>, i: nat, placeholder: string): string {
    if |sentences| == 0 then placeholder + IntToString(i + 1) else sentences[i % |sentences|]
  }

  /** `q.split(" ").slice(-6).join(" ")`. */
  function LastWords(q: string): (r: string)
    ensures |r| <= |q| && r == q[|q| - |r|..]
    ensures ' ' !in q ==> r == q
    ensures var parts := SplitOn(q, ' ');
            SplitOn(r, ' ') == parts[if |parts| <= 6 then 0 else |parts| - 6..]
  {
    var parts := SplitOn(q, ' ');
    var k := if |parts| <= 6 then 0 else |parts| - 6;
    JoinSuffix(parts, k, ' ');
    assert forall i :: 0 <= i < |parts[k..]| ==> ' ' !in parts[k..][i] by {
      forall i | 0 <= i < |parts[k..]| ensures ' ' !in parts[k..][i] { assert parts[k..][i] == parts[k + i]; }
    }
    SplitJoin(parts[k..], ' ');
    JoinSplit(q, ' ');
    assert ' ' !in q ==> parts == [q] by {
      if ' ' !in q { SplitNoSeparator(q, ' '); }
    }
    JoinWith(parts[k..], ' ')
  }

  /** Joining the last parts of a list gives an end piece of joining all of them. */
  lemma {:induction false} JoinSuffix(parts: seq<string>, k: nat, c: char)
    requires k <= |parts|
    ensures var all := JoinWith(parts, c); var tail := JoinWith(parts[k..], c);
              |tail| <= |all| && tail == all[|all| - |tail|..]
    decreases k
  {
    if k > 0 {
      JoinSuffix(parts[1..], k - 1, c);
      assert parts[1..][k - 1..] == parts[k..];
      if |parts| >= 2 {
        assert JoinWith(parts, c) == parts[0] + [c] + JoinWith(parts[1..], c);
      } else {
        assert parts[k..] == [];
      }
    }
  }

  /** `correct` of `makeMCQ`: the closing words of the question, or the question. */
  function CorrectText(q: string): (r: string)
    ensures q != [] ==> r != []
    ensures |r| <= |q| && r == q[|q| - |r|..]
  {
    var w := LastWords(q);
    if w == [] then q else w
  }

  const Variant := " variant"
  const Alt := " alt"
  const Other := " other"

  /** The four options of `makeMCQ` before shuffling: the correct text first, then three
      distractors cut to 60 characters. */
  function OptionVariants(correct: string): (r: seq<string>)
    ensures |r| == 4 && r[0] == correct
  {
    [correct, Cut(correct + Variant, 60), Cut(correct + Alt, 60), Cut(correct + Other, 60)]
  }

  /** The index of the first occurrence, or -1: `Array.prototype.indexOf`. */
  function IndexOf(xs: seq<string>, x: string): (r: int)
    ensures -1 <= r < |xs|
    ensures r >= 0 ==> xs[r] == x && forall k :: 0 <= k < r ==> xs[k] != x
    ensures r == -1 <==> x !in xs
    decreases |xs|
  {
    if xs == [] then -1
    else if xs[0] == x then 0
    else var r := IndexOf(xs[1..], x); if r == -1 then -1 else r + 1
  }

  function LetterIndex(a: string): (r: nat)
    requires a in Letters
    ensures r < 4 && Letters[r] == a
  {
    if a == "A" then 0 else if a == "B" then 1 else if a == "C" then 2 else 3
  }

  /** What `makeMCQ` promises of its item for the text `s`: the question is `s` cut to 220
      characters, the options are the shuffled variants of its closing words, and the answer
      letter points at the option holding those words. */
  predicate McqFrom(item: Question, s: string) {
    item.Mcq? && item.question == Cut(s, 220)
    && |item.options| == 4
    && multiset(item.options) == multiset(OptionVariants(CorrectText(item.question)))
    && item.answer in Letters
    && item.options[LetterIndex(item.answer)] == CorrectText(item.question)
  }

  /** The shuffle loop of `makeMCQ`: going down from the last slot, slot `i` is swapped with
      slot `draw(i) % (i + 1)`, the value `Math.floor(Math.random() * (i + 1))` stands for. */
  method Shuffle(opts: array<string>, draw: nat -> nat)
    modifies opts
    ensures multiset(opts[..]) == old(multiset(opts[..]))
  {
    var i := opts.Length - 1;
    while i > 0
      invariant i < opts.Length
      invariant multiset(opts[..]) == old(multiset(opts[..]))
    {
      var j := draw(i) % (i + 1);
      opts[i], opts[j] := opts[j], opts[i];
      i := i - 1;
    }
  }

  /** `makeMCQ(s, idx)`, the shuffle drawing from `draw`. */
  method MakeMcq(s: string, draw: nat -> nat) returns (item: Question)
    ensures McqFrom(item, s) && WellFormed(item)
  {
    var q := Cut(s, 220);
    var correct := CorrectText(q);
    var variants := OptionVariants(correct);
    var opts := new string[4](i requires 0 <= i < 4 => variants[i]);
    assert opts[..] == variants;
    Shuffle(opts, draw);
    var shuffled := opts[..];
    assert correct in multiset(shuffled);
    var ansIdx := IndexOf(shuffled, correct);
    var answer := Letters[if ansIdx < 0 then 0 else ansIdx];
    assert LetterIndex(answer) == ansIdx;
    item := Mcq(q, shuffled, answer);
  }

  /** `makeQNA(s, idx)`: the question is `s` cut to 240 characters, the answer its closing
      words, or "Answer". */
  function MakeQna(s: string): (r: Question)
    ensures r.Qna? && WellFormed(r) && r.question == Cut(s, 240)
    ensures r.answer == "Answer" || (|r.answer| <= |r.question| && r.answer == r.question[|r.question| - |r.answer|..])
  {
    var q := Cut(s, 240);
    var ans := LastWords(q);
    Qna(q, if ans == [] then "Answer" else ans)
  }

  /** Item `i` of `total` is multiple-choice: all of them for "MCQ", none for "QNA", and the
      first half (rounded down) for any other kind. */
  predicate McqSlot(kind: string, total: int, i: int) {
    kind == "MCQ" || (kind != "QNA" && i < total / 2)
  }

  /** Item `i` of a local run of `total` items over `sentences`. */
  predicate LocalItem(item: Question, sentences: seq<string>, kind: string, total: int, i: nat) {
    if McqSlot(kind, total, i) then McqFrom(item, ItemText(sentences, i, McqLabel))
    else item == MakeQna(ItemText(sentences, i, QnaLabel))
  }

  /** A local run grows by the item for the next index. */
  lemma PushLocal(out: seq<Question>, item: Question, sentences: seq<string>, kind: string, total: int)
    requires forall k :: 0 <= k < |out| ==> LocalItem(out[k], sentences, kind, total, k) && WellFormed(out[k])
    requires LocalItem(item, sentences, kind, total, |out|) && WellFormed(item)
    ensures forall k :: 0 <= k < |out| + 1 ==>
              LocalItem((out + [item])[k], sentences, kind, total, k) && WellFormed((out + [item])[k])
  {
    forall k | 0 <= k < |out| + 1
      ensures LocalItem((out + [item])[k], sentences, kind, total, k) && WellFormed((out + [item])[k])
    {
      if k < |out| { assert (out + [item])[k] == out[k]; }
    }
  }

  /** A loop of `localGenerate` pushing multiple-choice items up to index `hi`. */
  method PushMcqs(out: seq<Question>, sentences: seq<string>, kind: string, total: int, hi: nat,
                  pick: (nat, nat) -> nat) returns (res: seq<Question>)
    requires |out| <= hi
    requires forall i :: |out| <= i < hi ==> McqSlot(kind, total, i)
    requires forall k :: 0 <= k < |out| ==> LocalItem(out[k], sentences, kind, total, k) && WellFormed(out[k])
    ensures |res| == hi && res[..|out|] == out
    ensures forall k :: 0 <= k < hi ==> LocalItem(res[k], sentences, kind, total, k) && WellFormed(res[k])
  {
    res := out;
    for i := |out| to hi
      invariant |res| == i && res[..|out|] == out
      invariant forall k :: 0 <= k < i ==> LocalItem(res[k], sentences, kind, total, k) && WellFormed(res[k])
    {
      var item := MakeMcq(ItemText(sentences, i, McqLabel), (j: nat) => pick(i, j));
      PushLocal(res, item, sentences, kind, total);
      res := res + [item];
    }
  }

  /** A loop of `localGenerate` pushing short-answer items up to index `hi`. */
  method PushQnas(out: seq<Question>, sentences: seq<string>, kind: string, total: int, hi: nat)
    returns (res: seq<Question>)
    requires |out| <= hi
    requires forall i :: |out| <= i < hi ==> !McqSlot(kind, total, i)
    requires forall k :: 0 <= k < |out| ==> LocalItem(out[k], sentences, kind, total, k) && WellFormed(out[k])
    ensures |res| == hi && res[..|out|] == out
    ensures forall k :: 0 <= k < hi ==> LocalItem(res[k], sentences, kind, total, k) && WellFormed(res[k])
  {
    res := out;
    for i := |out| to hi
      invariant |res| == i && res[..|out|] == out
      invariant forall k :: 0 <= k < i ==> LocalItem(res[k], sentences, kind, total, k) && WellFormed(res[k])
    {
      var item := MakeQna(ItemText(sentences, i, QnaLabel));
      PushLocal(res, item, sentences, kind, total);
      res := res + [item];
    }
  }

  /** `localGenerate(text, count, type)`; `pick(idx, i)` is the draw of the `i`-th swap
      while shuffling item `idx`. */
  method LocalGenerate(text: string, count: int, kind: string, pick: (nat, nat) -> nat) returns (out: seq<Question>)
    ensures |out| == LocalTotal(count)
    ensures forall i :: 0 <= i < |out| ==> LocalItem(out[i], Sentences(text), kind, |out|, i) && WellFormed(out[i])
  {
    var sentences := Sentences(text);
    var total := LocalTotal(count);
    if kind == "MCQ" {
      out := PushMcqs([], sentences, kind, total, total, pick);
    } else if kind == "QNA" {
      assert "QNA" != "MCQ" by { assert "QNA"[0] != "MCQ"[0]; }
      out := PushQnas([], sentences, kind, total, total);
    } else {
      var mcqCount := total / 2;
      var mcqs := PushMcqs([], sentences, kind, total, mcqCount, pick);
      out := PushQnas(mcqs, sentences, kind, total, total);
    }
  }

  // ---------------------------------------------------------------------------
  // The handler

  datatype Request = Request(httpMethod: string, body: Json)

  /** The call to the language model: no key configured, a call that threw, or the
      content of the first choice (possibly missing). */
  datatype AiCall = NoKey | CallFailed | Answered(content: Option<string>)

  /** A 200 reply with its questions and the `ai_raw` detail, or an error status. */
  datatype Reply =
    | Questions(items: seq<Question>, aiRaw: Option<string>)
    | Refused(status: nat, error: string)

  const MethodNotAllowed := "Method not allowed"
  const MissingText := "Missing 'text' in request body. Provide extracted text to generate questions."
  const ServerError := "Server error generating questions"

  /** `String(body.text || "").trim()`. */
  function RequestText(body: Json): string {
    Trim(TextOr(Field(body, "text")))
  }

  /** `Number(body.questions || body.count || 5)`, NaN replaced by 5, then kept within 2 to 20. */
  function RequestCount(body: Json): (r: int)
    ensures 2 <= r <= 20
    ensures !Present(Field(body, "questions")) && !Present(Field(body, "count")) ==> r == 5
    ensures Present(Field(body, "questions")) && ToNumber(Field(body, "questions").value).None? ==> r == 5
    ensures Present(Field(body, "questions")) && ToNumber(Field(body, "questions").value).Some? ==>
              r == Clamp(ToNumber(Field(body, "questions").value).value)
    ensures !Present(Field(body, "questions")) && Present(Field(body, "count")) ==>
              r == (match ToNumber(Field(body, "count").value) case None => 5 case Some(n) => Clamp(n))
  {
    var v := OrElse(OrElse(Field(body, "questions"), Field(body, "count")), Some(JNum(5)));
    var n := ToNumber(v.value);
    Clamp(if n.None? then 5 else n.value)
  }

  /** `String(body.type || "MCQ").toUpperCase()`, kept when it is one of the three kinds
      and "MCQ" otherwise. */
  function RequestKind(body: Json): (r: string)
    ensures r == "QNA" || r == "MCQ" || r == "MIXED"
    ensures !Present(Field(body, "type")) ==> r == "MCQ"
    ensures Field(body, "type") == Some(JStr("qna")) ==> r == "QNA"
    ensures Field(body, "type") == Some(JStr("mixed")) ==> r == "MIXED"
  {
    var t := Field(body, "type");
    var raw := ToUpper(if Present(t) then ToJsString(t.value) else "MCQ");
    if raw == "QNA" || raw == "MCQ" || raw == "MIXED" then raw else "MCQ"
  }

  /** `aiRaw`: null without a key or after a failed call, else the content or "". */
  function AiRaw(call: AiCall): Option<string> {
    match call
    case Answered(c) => Some(if c.Some? then c.value else [])
    case _ => None
  }

  /** The model's items when its reply holds a non-empty JSON array. */
  function AiItems(call: AiCall, parse: string -> Option<Json>): (r: Option<seq<Json>>)
    ensures r.Some? ==> |r.value| > 0
    ensures AiRaw(call).None? ==> r.None?
    // the items are used exactly when the extracted reply is a non-empty array
    ensures r.Some? ==> AiRaw(call).Some? && ExtractReplyJson(AiRaw(call).value, parse) == Some(JArr(r.value))
    ensures AiRaw(call).Some? && ExtractReplyJson(AiRaw(call).value, parse).Some?
            && ExtractReplyJson(AiRaw(call).value, parse).value.JArr?
            && ExtractReplyJson(AiRaw(call).value, parse).value.items != [] ==>
              r == Some(ExtractReplyJson(AiRaw(call).value, parse).value.items)
  {
    var raw := AiRaw(call);
    if raw.None? then None
    else match ExtractReplyJson(raw.value, parse)
      case Some(JArr(items)) => if |items| > 0 then Some(items) else None
      case _ => None
  }

  /** `details.ai_raw` of a fallback reply: the first 800 characters of a non-empty reply. */
  function Details(call: AiCall): Option<string> {
    var raw := AiRaw(call);
    if raw.Some? && raw.value != [] then Some(Cut(raw.value, 800)) else None
  }

  /** `normalized.slice(0, questionsCount)` topped up with `localGenerate(text, 1, type)[0]`
      until there are exactly `count` questions; the `r`-th top-up is local run `r`. */
  method TopUp(kept: seq<Question>, count: int, text: string, kind: string, pick: (nat, nat, nat) -> nat)
    returns (out: seq<Question>)
    requires count >= 0
    requires forall k :: 0 <= k < |kept| ==> WellFormed(kept[k])
    ensures |out| == count && forall k :: 0 <= k < |out| ==> WellFormed(out[k])
    ensures out[..Min(|kept|, count)] == kept[..Min(|kept|, count)]
    ensures forall k :: Min(|kept|, count) <= k < |out| ==> LocalItem(out[k], Sentences(text), kind, 2, 0)
  {
    var m := Min(|kept|, count);
    out := kept[..m];
    var round := 1;
    while |out| < count
      invariant m <= |out| <= count && out[..m] == kept[..m]
      invariant forall k :: 0 <= k < |out| ==> WellFormed(out[k])
      invariant forall k :: m <= k < |out| ==> LocalItem(out[k], Sentences(text), kind, 2, 0)
      decreases count - |out|
    {
      var extra := LocalGenerate(text, 1, kind, (a: nat, b: nat) => pick(round, a, b));
      assert LocalItem(extra[0], Sentences(text), kind, 2, 0) && WellFormed(extra[0]);
      assert (out + [extra[0]])[..m] == out[..m];
      out := out + [extra[0]];
      round := round + 1;
    }
  }

  /** The model's items kept in order as far as they fit, then first local items only. */
  predicate ToppedUp(items: seq<Question>, kept: seq<Question>, sentences: seq<string>, kind: string) {
    var m := Min(|kept|, |items|);
    items[..m] == kept[..m] && forall k :: m <= k < |items| ==> LocalItem(items[k], sentences, kind, 2, 0)
  }

  /** A whole local run: item `k` is the `k`-th local item of `|items|`. */
  predicate LocalRun(items: seq<Question>, sentences: seq<string>, kind: string) {
    forall k :: 0 <= k < |items| ==> LocalItem(items[k], sentences, kind, |items|, k)
  }

  /** The handler. Every 200 reply holds exactly the requested number of well-formed
      questions: the normalised model items first (as many as fit), topped up with the first
      local item for the text; or, without usable model output, a whole local run. The
      `pick(call, idx, i)` draws are those of the `call`-th local run. */
  method Handle(req: Request, call: AiCall, parse: string -> Option<Json>, pick: (nat, nat, nat) -> nat)
    returns (res: Reply)
    ensures req.httpMethod != "POST" ==> res == Refused(405, MethodNotAllowed)
    ensures req.httpMethod == "POST" && RequestText(req.body) == [] ==> res == Refused(400, MissingText)
    ensures req.httpMethod == "POST" && RequestText(req.body) != [] ==>
              (res.Refused? <==> AiItems(call, parse).Some? && NormalizedItems(AiItems(call, parse).value).Err?)
    ensures res.Refused? ==> res.status == 405 || res.status == 400 || (res.status == 500 && res.error == ServerError)
    ensures res.Questions? ==>
              |res.items| == RequestCount(req.body) && forall k :: 0 <= k < |res.items| ==> WellFormed(res.items[k])
    ensures res.Questions? && AiItems(call, parse).Some? && NormalizedItems(AiItems(call, parse).value).Ok? ==>
              res.aiRaw.None?
              && ToppedUp(res.items, NormalizedItems(AiItems(call, parse).value).value,
                          Sentences(RequestText(req.body)), RequestKind(req.body))
    ensures res.Questions? && AiItems(call, parse).None? ==>
              res.aiRaw == Details(call) && LocalRun(res.items, Sentences(RequestText(req.body)), RequestKind(req.body))
  {
    if req.httpMethod != "POST" {
      return Refused(405, MethodNotAllowed);
    }
    var text := RequestText(req.body);
    var count := RequestCount(req.body);
    var kind := RequestKind(req.body);
    if text == [] {
      return Refused(400, MissingText);
    }
    var items := AiItems(call, parse);
    if items.Some? {
      var normalized := NormalizeAll(items.value);
      if normalized.Err? {
        return Refused(500, ServerError);
      }
      var out := TopUp(normalized.value, count, text, kind, pick);
      return Questions(out, None);
    }
    var fallback := LocalGenerate(text, count, kind, (a: nat, b: nat) => pick(0, a, b));
    return Questions(fallback, Details(call));
  }
}
