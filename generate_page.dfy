/** The test page of pages/generate.js: the checks made before asking for a test, and the
    local scoring of the answers given to a loaded test. */
module GeneratePage {
  import opened Wrappers
  import opened Strings
  import opened JsonValue

  const TooShort := "Please upload a PDF or paste at least some text (min 20 chars)."
  const BadCount := "Question count must be between 2 and 20."
  const NoTest := "No test loaded."

  /** The checks of `handleGenerate`, in order: the study text must hold at least 20
      characters once trimmed, then the count must lie within 2 to 20. */
  function CheckGenerate(text: string, count: int): (r: Option<string>)
    ensures r.None? <==> |Trim(text)| >= 20 && 2 <= count <= 20
    ensures |Trim(text)| < 20 ==> r == Some(TooShort)
    ensures |Trim(text)| >= 20 && !(2 <= count <= 20) ==> r == Some(BadCount)
  {
    if text == [] || |Trim(text)| < 20 then Some(TooShort)
    else if count < 2 || count > 20 then Some(BadCount)
    else None
  }

  // ---------------------------------------------------------------------------
  // Scoring

  /** `/^[A-D]$/i`. */
  predicate IsLetter(s: string) {
    |s| == 1 && 'A' <= UpperChar(s[0]) <= 'D'
  }

  /** The option index a letter names. */
  function LetterIndex(s: string): (r: nat)
    requires IsLetter(s)
    ensures r < 4
  {
    UpperChar(s[0]) as int - 'A' as int
  }

  /** `String.fromCharCode(65 + idx)`: the code is taken modulo 2^16; a code in the
      surrogate range stands alone and is shown here as U+FFFD, which no letter equals. */
  function LetterOf(idx: nat): (r: string)
    ensures |r| == 1
    ensures idx < 26 ==> r[0] as int == 65 + idx
  {
    var code := (65 + idx) % 0x1_0000;
    if 0xD800 <= code < 0xE000 then "\U{FFFD}" else [code as char]
  }

  /** `String(opt).trim()` for every option. */
  function OptionTexts(options: seq<Json>): (r: seq<string>)
    ensures |r| == |options|
  {
    seq(|options|, i requires 0 <= i < |options| => Trim(ToJsString(options[i])))
  }

  /** `findIndex` over the option texts: the first one equal to `user`, or -1. */
  function FindText(texts: seq<string>, user: string): (r: int)
    ensures -1 <= r < |texts|
    ensures r >= 0 ==> texts[r] == user
    ensures forall k :: 0 <= k < |texts| && (r == -1 || k < r) ==> texts[k] != user
    decreases |texts|
  {
    if texts == [] then -1
    else if texts[0] == user then 0
    else var r := FindText(texts[1..], user); if r == -1 then -1 else r + 1
  }

  /** The options of a question when it has a non-empty options array. */
  function McqOptions(q: Json): Option<seq<Json>> {
    var o := Field(q, "options");
    if Present(o) && o.value.JArr? && |o.value.items| > 0 then Some(o.value.items) else None
  }

  /** The answer given to question `i`, if there is one and it is not blank. */
  function GivenAnswer(answers: map<nat, string>, i: nat): Option<string> {
    if i in answers && Trim(answers[i]) != [] then Some(answers[i]) else None
  }

  /** Whether the trimmed answer `user` is right for a multiple-choice question with these
      options and key `q.answer`. With a letter key the answer names a letter, either
      itself or through the text of the first option equal to it; with any other key the
      texts must agree up to letter case. */
  predicate McqRight(texts: seq<string>, key: string, user: string) {
    if IsLetter(key) then
      var letter: Option<string> :=
        if IsLetter(user) then Some(ToUpper(user))
        else var idx := FindText(texts, user); if idx >= 0 then Some(LetterOf(idx)) else None;
      letter.Some? && ToUpper(letter.value) == ToUpper(key)
    else ToLower(user) == ToLower(key)
  }

  datatype Verdict = Skipped | Right | Wrong

  /** How `submitTest` judges question `q` given the answer `ans`: only answered questions
      count, and an answered question without options is always wrong. */
  function Judge(q: Json, ans: Option<string>): (r: Verdict)
    ensures r == Skipped <==> ans.None?
    ensures ans.Some? && McqOptions(q).None? ==> r == Wrong
  {
    if ans.None? then Skipped
    else match McqOptions(q)
      case Some(options) =>
        if McqRight(OptionTexts(options), Trim(TextOr(Field(q, "answer"))), Trim(ans.value)) then Right else Wrong
      case None => Wrong
  }

  /** An entry of `wrongQuestions`. The given answer is trimmed for a multiple-choice
      question and kept as typed for an open one; an open question has `options: null`,
      written `None` here. `correct` is `None` when the property is left undefined. */
  datatype WrongEntry = WrongEntry(index: nat, question: Option<Json>, userAns: string, correct: Option<Json>,
                                   options: Option<seq<Json>>)

  /** The entry for a wrong answer: a multiple-choice question carries its options and its
      answer as given; an open question carries the answer or an explicit null, never an
      undefined one. */
  function WrongEntryFor(q: Json, ans: string, i: nat): (r: WrongEntry)
    ensures r.index == i && r.question == Field(q, "question")
    ensures McqOptions(q).Some? ==>
              r.userAns == Trim(ans) && r.correct == Field(q, "answer") && r.options == McqOptions(q)
    ensures McqOptions(q).None? ==> r.userAns == ans && r.options.None? && r.correct.Some?
    ensures McqOptions(q).None? ==>
              (r.correct == Some(JNull) <==> Nullish(Field(q, "answer")))
              && (!Nullish(Field(q, "answer")) ==> r.correct == Field(q, "answer"))
  {
    match McqOptions(q)
    case Some(options) => WrongEntry(i, Field(q, "question"), Trim(ans), Field(q, "answer"), Some(options))
    case None => WrongEntry(i, Field(q, "question"), ans, Coalesce(Field(q, "answer"), Some(JNull)), None)
  }

  datatype LocalReport = LocalReport(totalQuestions: nat, attempted: nat, attemptedCorrect: nat, attemptedWrong: nat)

  /** The verdict on every question. */
  function Verdicts(questions: seq<Json>, answers: map<nat, string>): (vs: seq<Verdict>)
    ensures |vs| == |questions|
  {
    seq(|questions|, i requires 0 <= i < |questions| => Judge(questions[i], GivenAnswer(answers, i)))
  }

  datatype Counts = Counts(attempted: nat, right: nat, wrong: nat)

  /** The attempted, right and wrong counts over the first `n` verdicts. */
  function Tally(vs: seq<Verdict>, n: nat): Counts
    requires n <= |vs|
    decreases n
  {
    if n == 0 then Counts(0, 0, 0)
    else
      var c := Tally(vs, n - 1);
      match vs[n - 1]
      case Skipped => c
      case Right => Counts(c.attempted + 1, c.right + 1, c.wrong)
      case Wrong => Counts(c.attempted + 1, c.right, c.wrong + 1)
  }

  /** The wrong answers among the first `n` questions, in question order. */
  function WrongList(questions: seq<Json>, answers: map<nat, string>, vs: seq<Verdict>, n: nat): seq<WrongEntry>
    requires |vs| == |questions| && n <= |questions|
    decreases n
  {
    if n == 0 then []
    else
      var prev := WrongList(questions, answers, vs, n - 1);
      var ans := GivenAnswer(answers, n - 1);
      if vs[n - 1] == Wrong && ans.Some? then prev + [WrongEntryFor(questions[n - 1], ans.value, n - 1)]
      else prev
  }

  /** `letterOfUser && letterOfUser.toUpperCase() === correctRaw.toUpperCase()` and the
      case-insensitive text comparison, for one multiple-choice answer. The page computes
      this with a sequence of local assignments and early exits; the method follows those
      statements, and its ensures proves them equal to the rule `McqRight` that the
      verdicts are specified by. */
  method CheckMcq(options: seq<Json>, correctRaw: string, normalizedUser: string) returns (isCorrect: bool)
    ensures isCorrect == McqRight(OptionTexts(options), correctRaw, normalizedUser)
  {
    isCorrect := false;
    if IsLetter(correctRaw) {
      var letterOfUser: Option<string>;
      if IsLetter(normalizedUser) {
        letterOfUser := Some(ToUpper(normalizedUser));
      } else {
        var idx := FindText(OptionTexts(options), normalizedUser);
        letterOfUser := if idx >= 0 then Some(LetterOf(idx)) else None;
      }
      if letterOfUser.Some? && ToUpper(letterOfUser.value) == ToUpper(correctRaw) {
        isCorrect := true;
      }
    } else if ToLower(normalizedUser) == ToLower(correctRaw) {
      isCorrect := true;
    }
  }

  /** One more answered question extends the wrong-answer list exactly when it is wrong. */
  lemma WrongListNext(questions: seq<Json>, answers: map<nat, string>, vs: seq<Verdict>, i: nat, ans: string)
    requires |vs| == |questions| && i < |questions| && GivenAnswer(answers, i) == Some(ans)
    ensures WrongList(questions, answers, vs, i + 1) ==
              if vs[i] == Wrong then WrongList(questions, answers, vs, i) + [WrongEntryFor(questions[i], ans, i)]
              else WrongList(questions, answers, vs, i)
  {
  }

  /** The body of the scoring loop for an answered question: the verdict, and the entry
      `wrongQuestions` receives when it is wrong. It follows the loop body's statements
      and is proved to agree with `Judge` and `WrongEntryFor`, the functions the
      scoring lemmas are stated on. */
  method JudgeAnswer(q: Json, ans: string, i: nat) returns (verdict: Verdict, entry: WrongEntry)
    ensures verdict == Judge(q, Some(ans)) && verdict != Skipped
    ensures entry == WrongEntryFor(q, ans, i)
  {
    var options := McqOptions(q);
    if options.Some? {
      var correctRaw := Trim(TextOr(Field(q, "answer")));
      var normalizedUser := Trim(ans);
      var isCorrect := CheckMcq(options.value, correctRaw, normalizedUser);
      JudgeMcq(q, ans, options.value);
      verdict := if isCorrect then Right else Wrong;
      entry := WrongEntry(i, Field(q, "question"), normalizedUser, Field(q, "answer"), options);
    } else {
      verdict := Wrong;
      entry := WrongEntry(i, Field(q, "question"), ans, Coalesce(Field(q, "answer"), Some(JNull)), None);
    }
  }

  /** An answered question with options is judged by the multiple-choice rule. */
  lemma JudgeMcq(q: Json, ans: string, options: seq<Json>)
    requires McqOptions(q) == Some(options)
    ensures Judge(q, Some(ans)) == if McqRight(OptionTexts(options), Trim(TextOr(Field(q, "answer"))), Trim(ans)) then Right else Wrong
  {
  }

  /** The local scoring of `submitTest`: "No test loaded." for an empty test; otherwise the
      counts and the wrong answers, one question at a time. */
  method ScoreTest(questions: seq<Json>, answers: map<nat, string>) returns (r: Result<(LocalReport, seq<WrongEntry>), string>)
    ensures |questions| == 0 <==> r == Err(NoTest)
    ensures r.Ok? ==>
              var vs := Verdicts(questions, answers);
              var t := Tally(vs, |questions|);
              r.value.0 == LocalReport(|questions|, t.attempted, t.right, t.wrong)
              && r.value.1 == WrongList(questions, answers, vs, |questions|)
  {
    if |questions| == 0 {
      return Err(NoTest);
    }
    ghost var vs := Verdicts(questions, answers);
    var attempted, attemptedCorrect, attemptedWrong := 0, 0, 0;
    var wrongQuestions: seq<WrongEntry> := [];
    for i := 0 to |questions|
      invariant Counts(attempted, attemptedCorrect, attemptedWrong) == Tally(vs, i)
      invariant wrongQuestions == WrongList(questions, answers, vs, i)
    {
      var userAns := GivenAnswer(answers, i);
      assert vs[i] == Judge(questions[i], userAns);
      if userAns.None? {
        continue;
      }
      attempted := attempted + 1;
      var verdict, entry := JudgeAnswer(questions[i], userAns.value, i);
      assert vs[i] == verdict;
      WrongListNext(questions, answers, vs, i, userAns.value);
      if verdict == Right {
        attemptedCorrect := attemptedCorrect + 1;
      } else {
        attemptedWrong := attemptedWrong + 1;
        wrongQuestions := wrongQuestions + [entry];
      }
    }
    return Ok((LocalReport(|questions|, attempted, attemptedCorrect, attemptedWrong), wrongQuestions));
  }

  /** Every attempted question is either right or wrong, and no more are attempted than
      there are questions. */
  lemma {:induction false} TallyBalanced(vs: seq<Verdict>, n: nat)
    requires n <= |vs|
    ensures Tally(vs, n).attempted == Tally(vs, n).right + Tally(vs, n).wrong
    ensures Tally(vs, n).attempted <= n
    decreases n
  {
    if n > 0 { TallyBalanced(vs, n - 1); }
  }

  /** A verdict other than `Skipped` is given only to answered questions, as `Judge` does. */
  predicate Consistent(answers: map<nat, string>, vs: seq<Verdict>) {
    forall i :: 0 <= i < |vs| && vs[i] != Skipped ==> GivenAnswer(answers, i).Some?
  }

  /** The verdicts are consistent with the answers, and a question is skipped exactly
      where it has no answer. */
  lemma VerdictsConsistent(questions: seq<Json>, answers: map<nat, string>)
    ensures Consistent(answers, Verdicts(questions, answers))
    ensures forall i :: 0 <= i < |questions| ==>
              (Verdicts(questions, answers)[i] == Skipped <==> GivenAnswer(answers, i).None?)
  {
    var vs := Verdicts(questions, answers);
    forall i | 0 <= i < |vs|
      ensures vs[i] == Skipped <==> GivenAnswer(answers, i).None?
    {
      assert vs[i] == Judge(questions[i], GivenAnswer(answers, i));
    }
  }

  /** The wrong-answer list has one entry per wrong answer. */
  lemma {:induction false} WrongListCounted(questions: seq<Json>, answers: map<nat, string>, vs: seq<Verdict>, n: nat)
    requires |vs| == |questions| && n <= |questions| && Consistent(answers, vs)
    ensures |WrongList(questions, answers, vs, n)| == Tally(vs, n).wrong
    decreases n
  {
    if n > 0 {
      WrongListCounted(questions, answers, vs, n - 1);
    }
  }

  /** `cur` is `prev`, or `prev` with one entry for question `i` appended. */
  predicate Appended(prev: seq<WrongEntry>, cur: seq<WrongEntry>, i: nat) {
    cur == prev || (|cur| == |prev| + 1 && cur[..|prev|] == prev && cur[|prev|].index == i)
  }

  /** One more question either leaves the wrong-answer list as it was or appends one entry
      for that question. */
  lemma WrongListStep(questions: seq<Json>, answers: map<nat, string>, vs: seq<Verdict>, n: nat)
    requires |vs| == |questions| && 0 < n <= |questions|
    ensures Appended(WrongList(questions, answers, vs, n - 1), WrongList(questions, answers, vs, n), n - 1)
  {
    var prev := WrongList(questions, answers, vs, n - 1);
    var cur := WrongList(questions, answers, vs, n);
    if vs[n - 1] == Wrong && GivenAnswer(answers, n - 1).Some? {
      var e := WrongEntryFor(questions[n - 1], GivenAnswer(answers, n - 1).value, n - 1);
      assert cur == prev + [e];
      assert cur[..|prev|] == prev;
    }
  }

  /** `cur` is longer than `prev`. */
  predicate Grew(prev: seq<WrongEntry>, cur: seq<WrongEntry>) {
    |cur| != |prev|
  }

  /** With consistent verdicts, the list grows at question `n - 1` exactly when that
      question was judged wrong. */
  lemma WrongListGrows(questions: seq<Json>, answers: map<nat, string>, vs: seq<Verdict>, n: nat)
    requires |vs| == |questions| && 0 < n <= |questions| && Consistent(answers, vs)
    ensures Grew(WrongList(questions, answers, vs, n - 1), WrongList(questions, answers, vs, n)) <==> vs[n - 1] == Wrong
  {
    assert vs[n - 1] != Skipped ==> GivenAnswer(answers, n - 1).Some?;
  }

  /** Appending an entry for question `n - 1` to a list ordered below `n - 1`, or appending
      nothing, gives a list ordered below `n`. */
  lemma AppendKeepsOrder(prev: seq<WrongEntry>, cur: seq<WrongEntry>, n: nat)
    requires n > 0
    requires forall k :: 0 <= k < |prev| ==> prev[k].index < n - 1
    requires forall k, l :: 0 <= k < l < |prev| ==> prev[k].index < prev[l].index
    requires Appended(prev, cur, n - 1)
    ensures forall k :: 0 <= k < |cur| ==> cur[k].index < n
    ensures forall k, l :: 0 <= k < l < |cur| ==> cur[k].index < cur[l].index
  {
    if cur != prev {
      forall k | 0 <= k < |prev| ensures cur[k] == prev[k] {
        assert cur[k] == cur[..|prev|][k];
      }
    }
  }

  /** Every entry of `wl` is for a question before `n`. */
  predicate Below(wl: seq<WrongEntry>, n: int) {
    forall k :: 0 <= k < |wl| ==> wl[k].index < n
  }

  /** Some entry of `wl` is for question `i`. */
  predicate Names(wl: seq<WrongEntry>, i: nat)
    decreases |wl|
  {
    wl != [] && (wl[|wl| - 1].index == i || Names(wl[..|wl| - 1], i))
  }

  /** A list of entries all before `n` names no question from `n` on. */
  lemma {:induction false} NamesBelow(wl: seq<WrongEntry>, n: int, i: nat)
    requires Below(wl, n) && n <= i
    ensures !Names(wl, i)
    decreases |wl|
  {
    if wl != [] {
      var init := wl[..|wl| - 1];
      assert Below(init, n) by {
        forall k | 0 <= k < |init| ensures init[k].index < n { assert init[k] == wl[k]; }
      }
      NamesBelow(init, n, i);
    }
  }

  /** Under the same appending, an earlier question is named in the new list exactly when it
      was named in the old one, and question `n - 1` exactly when an entry was appended. */
  lemma AppendNames(prev: seq<WrongEntry>, cur: seq<WrongEntry>, n: nat, i: nat)
    requires n > 0 && Below(prev, n - 1) && Appended(prev, cur, n - 1)
    ensures i < n - 1 ==> (Names(cur, i) <==> Names(prev, i))
    ensures i == n - 1 ==> (Names(cur, i) <==> Grew(prev, cur))
  {
    if |cur| != |prev| {
      assert cur[..|cur| - 1] == prev;
    } else {
      NamesBelow(prev, n - 1, n - 1);
    }
  }

  /** The wrong-answer list is in increasing question order, within the questions seen. */
  lemma {:induction false} WrongListOrdered(questions: seq<Json>, answers: map<nat, string>, vs: seq<Verdict>, n: nat)
    requires |vs| == |questions| && n <= |questions|
    ensures forall k :: 0 <= k < |WrongList(questions, answers, vs, n)| ==> WrongList(questions, answers, vs, n)[k].index < n
    ensures forall k, l :: 0 <= k < l < |WrongList(questions, answers, vs, n)| ==>
              WrongList(questions, answers, vs, n)[k].index < WrongList(questions, answers, vs, n)[l].index
    decreases n
  {
    if n > 0 {
      WrongListOrdered(questions, answers, vs, n - 1);
      WrongListStep(questions, answers, vs, n);
      AppendKeepsOrder(WrongList(questions, answers, vs, n - 1), WrongList(questions, answers, vs, n), n);
    }
  }

  lemma WrongListBelow(questions: seq<Json>, answers: map<nat, string>, vs: seq<Verdict>, n: nat)
    requires |vs| == |questions| && n <= |questions|
    ensures Below(WrongList(questions, answers, vs, n), n)
  {
    WrongListOrdered(questions, answers, vs, n);
  }

  /** The last question seen is in the wrong-answer list exactly when it was judged wrong. */
  lemma WrongListNewest(questions: seq<Json>, answers: map<nat, string>, vs: seq<Verdict>, n: nat)
    requires |vs| == |questions| && 0 < n <= |questions| && Consistent(answers, vs)
    ensures vs[n - 1] == Wrong <==> Names(WrongList(questions, answers, vs, n), n - 1)
  {
    var prev := WrongList(questions, answers, vs, n - 1);
    var cur := WrongList(questions, answers, vs, n);
    WrongListBelow(questions, answers, vs, n - 1);
    WrongListStep(questions, answers, vs, n);
    WrongListGrows(questions, answers, vs, n);
    AppendNames(prev, cur, n, n - 1);
  }

  /** The wrong-answer list names exactly the questions judged wrong. */
  lemma {:induction false} WrongListExact(questions: seq<Json>, answers: map<nat, string>, vs: seq<Verdict>, n: nat, i: nat)
    requires |vs| == |questions| && i < n <= |questions| && Consistent(answers, vs)
    ensures vs[i] == Wrong <==> Names(WrongList(questions, answers, vs, n), i)
    decreases n
  {
    if i < n - 1 {
      var prev := WrongList(questions, answers, vs, n - 1);
      var cur := WrongList(questions, answers, vs, n);
      WrongListBelow(questions, answers, vs, n - 1);
      WrongListStep(questions, answers, vs, n);
      AppendNames(prev, cur, n, i);
      WrongListExact(questions, answers, vs, n - 1, i);
    } else {
      WrongListNewest(questions, answers, vs, n);
    }
  }

  /** With a letter key, a multiple-choice answer is right exactly when it is that letter
      in either case, or, not being a single letter, it is the text of the first option
      that reads so and that option sits at the key's position (for questions with up to
      26 options, whose letters are all capitals). */
  lemma LetterKeyRight(texts: seq<string>, key: string, user: string)
    requires IsLetter(key) && |texts| <= 26
    ensures McqRight(texts, key, user) <==>
              (IsLetter(user) && UpperChar(user[0]) == UpperChar(key[0]))
              || (!IsLetter(user) && FindText(texts, user) == LetterIndex(key))
  {
    if IsLetter(user) {
      assert ToUpper(ToUpper(user)) == [UpperChar(user[0])];
      assert ToUpper(key) == [UpperChar(key[0])];
    } else {
      var idx := FindText(texts, user);
      assert ToUpper(key) == [UpperChar(key[0])];
      if idx >= 0 {
        assert ToUpper(LetterOf(idx)) == LetterOf(idx);
      }
    }
  }
}
