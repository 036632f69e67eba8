/** The career questionnaire of pages/career-counseling.js: its fixed sections of
    questions, the answer state (a list of selected options per question, keyed by section
    id and then question id), toggling an option, and the check that the form is complete
    before it is sent. */
module Career {
  import opened Wrappers
  import opened Strings

  datatype Question = Question(id: string, text: string)
  datatype Section = Section(id: string, title: string, questions: seq<Question>)

  /** The selected options, by section id and question id. */
  type Answers = map<string, map<string, seq<string>>>

  // ---------------------------------------------------------------------------
  // The questionnaire

  const Section1 := Section("section1", "Section 1 — Interests & Passions", [
    Question("s1q1", "Which activity excites you the most?"),
    Question("s1q2", "You enjoy working most with:"),
    Question("s1q3", "If money didn’t matter, what would you spend most of your time doing?"),
    Question("s1q4", "Do you prefer creating something new or improving something existing?"),
    Question("s1q5", "Which of these problems would you most like to solve?")
  ])

  const Section2 := Section("section2", "Section 2 — Cognitive Strengths", [
    Question("s2q1", "Which comes easiest to you?"),
    Question("s2q2", "How comfortable are you learning new digital tools/software?"),
    Question("s2q3", "Can you focus on a single, complex task for hours?"),
    Question("s2q4", "Which describes you best?")
  ])

  const Section3 := Section("section3", "Section 3 — Personality & Work Style", [
    Question("s3q1", "Do you prefer:"),
    Question("s3q2", "Do you work better:"),
    Question("s3q3", "How do you handle deadlines?"),
    Question("s3q4", "Do you like experimenting & risk-taking?"),
    Question("s3q5", "What’s your ideal work pace?")
  ])

  const Section4 := Section("section4", "Section 4 — Values & Motivators", [
    Question("s4q1", "What matters most in your career?"),
    Question("s4q2", "Would you rather:"),
    Question("s4q3", "Which lifestyle do you prefer?")
  ])

  const Section5 := Section("section5", "Section 5 — Future Skills & Industry Preference", [
    Question("s5q1", "Does the idea of AI & automation excite or scare you?"),
    Question("s5q2", "Which field attracts you the most?"),
    Question("s5q3", "Do you like continuously learning new things?"),
    Question("s5q4", "Which global problem would you want to contribute to solving?"),
    Question("s5q5", "Which role feels more natural to you?"),
    Question("s5q6", "Which tech trend excites you most?")
  ])

  const Section6 := Section("section6", "Section 6 — Practical Constraints", [
    Question("s6q1", "How far are you willing to study for your dream career?"),
    Question("s6q2", "Are you open to moving abroad for better opportunities?"),
    Question("s6q3", "When do you want to start earning?"),
    Question("s6q4", "How much financial investment can you realistically make in your education?")
  ])

  /** The six sections, in the order the form shows them. */
  const Sections := [Section1, Section2, Section3, Section4, Section5, Section6]

  /** The number of questions in the given sections. */
  function QuestionCount(secs: seq<Section>): nat {
    if secs == [] then 0 else |secs[0].questions| + QuestionCount(secs[1..])
  }

  function Digit(n: nat): char
    requires n < 10
  {
    ('0' as int + n) as char
  }

  /** The questions of section `k` have the ids "s<k>q1", "s<k>q2", ... in order. */
  predicate NumberedAs(s: Section, k: nat)
    requires k < 10
  {
    |s.questions| < 10
    && forall j :: 0 <= j < |s.questions| ==> s.questions[j].id == ['s', Digit(k), 'q', Digit(j + 1)]
  }

  lemma Section1Numbered()
    ensures NumberedAs(Section1, 1)
  {
  }

  lemma Section2Numbered()
    ensures NumberedAs(Section2, 2)
  {
  }

  lemma Section3Numbered()
    ensures NumberedAs(Section3, 3)
  {
  }

  lemma Section4Numbered()
    ensures NumberedAs(Section4, 4)
  {
  }

  lemma Section5Numbered()
    ensures NumberedAs(Section5, 5)
  {
  }

  lemma Section6Numbered()
    ensures NumberedAs(Section6, 6)
  {
  }

  lemma SectionsNumbered()
    ensures forall i :: 0 <= i < |Sections| ==> NumberedAs(Sections[i], i + 1)
  {
    Section1Numbered();
    Section2Numbered();
    Section3Numbered();
    Section4Numbered();
    Section5Numbered();
    Section6Numbered();
  }

  /** The questionnaire has six sections with distinct ids, holding 27 questions. */
  lemma SectionsCount()
    ensures |Sections| == 6 && QuestionCount(Sections) == 27
    ensures forall i1, i2 :: 0 <= i1 < i2 < |Sections| ==> Sections[i1].id != Sections[i2].id
  {
    assert QuestionCount(Sections[6..]) == 0;
    assert QuestionCount(Sections[5..]) == 4;
    assert QuestionCount(Sections[4..]) == 10;
    assert QuestionCount(Sections[3..]) == 13;
    assert QuestionCount(Sections[2..]) == 18;
    assert QuestionCount(Sections[1..]) == 22;
  }

  /** No two questions of the questionnaire share an id. */
  lemma QuestionIdsDistinct()
    ensures forall i1, j1, i2, j2 ::
              0 <= i1 < |Sections| && 0 <= j1 < |Sections[i1].questions|
              && 0 <= i2 < |Sections| && 0 <= j2 < |Sections[i2].questions| && (i1 != i2 || j1 != j2)
              ==> Sections[i1].questions[j1].id != Sections[i2].questions[j2].id
  {
    SectionsNumbered();
    forall i1, j1, i2, j2 |
      0 <= i1 < |Sections| && 0 <= j1 < |Sections[i1].questions|
      && 0 <= i2 < |Sections| && 0 <= j2 < |Sections[i2].questions| && (i1 != i2 || j1 != j2)
      ensures Sections[i1].questions[j1].id != Sections[i2].questions[j2].id
    {
      var a := Sections[i1].questions[j1].id;
      var b := Sections[i2].questions[j2].id;
      assert a[1] == Digit(i1 + 1) && a[3] == Digit(j1 + 1);
      assert b[1] == Digit(i2 + 1) && b[3] == Digit(j2 + 1);
    }
  }

  // ---------------------------------------------------------------------------
  // The initial answers

  /** One empty selection per question, filled in question order. */
  function EmptyLists(qs: seq<Question>): map<string, seq<string>>
    decreases |qs|
  {
    if qs == [] then map[] else EmptyLists(qs[..|qs| - 1])[qs[|qs| - 1].id := []]
  }

  /** The answers the page starts with, filled in section order. */
  function Initial(secs: seq<Section>): Answers
    decreases |secs|
  {
    if secs == [] then map[] else Initial(secs[..|secs| - 1])[secs[|secs| - 1].id := EmptyLists(secs[|secs| - 1].questions)]
  }

  /** Every question has an entry, and every entry is empty. */
  lemma {:induction false} EmptyListsAll(qs: seq<Question>)
    ensures forall j :: 0 <= j < |qs| ==> qs[j].id in EmptyLists(qs)
    ensures forall id :: id in EmptyLists(qs) ==> EmptyLists(qs)[id] == []
    decreases |qs|
  {
    if qs != [] {
      EmptyListsAll(qs[..|qs| - 1]);
    }
  }

  /** With distinct section ids, the initial answers map every question of every section to
      an empty selection, and hold nothing else. */
  lemma {:induction false} InitialAll(secs: seq<Section>)
    requires forall i1, i2 :: 0 <= i1 < i2 < |secs| ==> secs[i1].id != secs[i2].id
    ensures forall i :: 0 <= i < |secs| ==> secs[i].id in Initial(secs) && Initial(secs)[secs[i].id] == EmptyLists(secs[i].questions)
    ensures forall sid :: sid in Initial(secs) ==> exists i :: 0 <= i < |secs| && secs[i].id == sid
    decreases |secs|
  {
    if secs != [] {
      var front := secs[..|secs| - 1];
      InitialAll(front);
      forall sid | sid in Initial(secs)
        ensures exists i :: 0 <= i < |secs| && secs[i].id == sid
      {
        if sid != secs[|secs| - 1].id {
          var i :| 0 <= i < |front| && front[i].id == sid;
          assert secs[i].id == sid;
        }
      }
    }
  }

  /** Initially every question in every section maps to an empty selection. */
  lemma InitialAnswersEmpty()
    ensures forall i, j :: 0 <= i < |Sections| && 0 <= j < |Sections[i].questions| ==>
              Sections[i].id in Initial(Sections) && Sections[i].questions[j].id in Initial(Sections)[Sections[i].id]
              && Initial(Sections)[Sections[i].id][Sections[i].questions[j].id] == []
  {
    SectionsCount();
    InitialAll(Sections);
    forall i, j | 0 <= i < |Sections| && 0 <= j < |Sections[i].questions|
      ensures Sections[i].questions[j].id in Initial(Sections)[Sections[i].id]
              && Initial(Sections)[Sections[i].id][Sections[i].questions[j].id] == []
    {
      EmptyListsAll(Sections[i].questions);
    }
  }

  // ---------------------------------------------------------------------------
  // Toggling an option

  /** `arr.indexOf(x)`: the first position of `x`, or -1. */
  function IndexOf(arr: seq<string>, x: string): (r: int)
    ensures -1 <= r < |arr|
    ensures r == -1 <==> x !in arr
    ensures r >= 0 ==> arr[r] == x && forall k :: 0 <= k < r ==> arr[k] != x
    decreases |arr|
  {
    if arr == [] then -1
    else if arr[0] == x then 0
    else var r := IndexOf(arr[1..], x); if r == -1 then -1 else r + 1
  }

  /** The list after toggling `x`: appended when absent, its first occurrence removed
      otherwise. */
  function Toggled(arr: seq<string>, x: string): (r: seq<string>)
    ensures x !in arr ==> r == arr + [x]
    ensures x in arr ==> |r| == |arr| - 1 && multiset(r) == multiset(arr) - multiset{x}
  {
    var i := IndexOf(arr, x);
    if i == -1 then arr + [x]
    else
      assert arr == arr[..i] + [arr[i]] + arr[i + 1..];
      arr[..i] + arr[i + 1..]
  }

  predicate NoDuplicates(arr: seq<string>) {
    forall i, j :: 0 <= i < j < |arr| ==> arr[i] != arr[j]
  }

  /** Removing one entry of a duplicate-free list removes exactly that option. */
  lemma RemoveAtMembers(arr: seq<string>, i: nat)
    requires NoDuplicates(arr) && i < |arr|
    ensures NoDuplicates(arr[..i] + arr[i + 1..])
    ensures arr[i] !in arr[..i] + arr[i + 1..]
    ensures forall y :: y != arr[i] ==> (y in arr[..i] + arr[i + 1..] <==> y in arr)
  {
    var r := arr[..i] + arr[i + 1..];
    assert forall k :: 0 <= k < |r| ==> r[k] == (if k < i then arr[k] else arr[k + 1]);
    forall y | y != arr[i] && y in arr
      ensures y in r
    {
      var k :| 0 <= k < |arr| && arr[k] == y;
      assert r[if k < i then k else k - 1] == y;
    }
  }

  /** Toggling keeps a list free of duplicates, flips whether `x` is selected and leaves
      every other option as it was. */
  lemma ToggleSelects(arr: seq<string>, x: string)
    requires NoDuplicates(arr)
    ensures NoDuplicates(Toggled(arr, x))
    ensures x in Toggled(arr, x) <==> x !in arr
    ensures forall y :: y != x ==> (y in Toggled(arr, x) <==> y in arr)
  {
    if x in arr {
      var i := IndexOf(arr, x);
      assert Toggled(arr, x) == arr[..i] + arr[i + 1..];
      RemoveAtMembers(arr, i);
    }
  }

  /** Toggling an absent option twice gives back the list. */
  lemma ToggleTwiceAbsent(arr: seq<string>, x: string)
    requires x !in arr
    ensures Toggled(Toggled(arr, x), x) == arr
  {
    var once := arr + [x];
    assert IndexOf(once, x) == |arr| by {
      assert forall k :: 0 <= k < |arr| ==> once[k] != x;
    }
    assert once[..|arr|] == arr;
  }

  /** In a duplicate-free list, toggling the last option drops just that option. */
  lemma ToggleLast(arr: seq<string>, x: string)
    requires NoDuplicates(arr) && arr != [] && arr[|arr| - 1] == x
    ensures Toggled(arr, x) == arr[..|arr| - 1]
  {
    assert IndexOf(arr, x) == |arr| - 1;
  }

  /** Toggling a selected option twice moves it to the end of a duplicate-free list: the
      selection is the same, and the list is the same when the option was last. */
  lemma ToggleTwicePresent(arr: seq<string>, x: string)
    requires NoDuplicates(arr) && x in arr
    ensures multiset(Toggled(Toggled(arr, x), x)) == multiset(arr)
    ensures arr[|arr| - 1] == x ==> Toggled(Toggled(arr, x), x) == arr
  {
    var once := Toggled(arr, x);
    assert x !in once by { ToggleSelects(arr, x); }
    assert Toggled(once, x) == once + [x];
    PutBack(arr, once, x);
    if arr[|arr| - 1] == x {
      assert once == arr[..|arr| - 1] by { ToggleLast(arr, x); }
      PutBack(arr, once, x);
    }
  }

  /** Appending the removed option restores the selection; when the option was last and
      the rest is kept in order, it restores the list itself. */
  lemma PutBack(arr: seq<string>, once: seq<string>, x: string)
    requires x in arr && multiset(once) == multiset(arr) - multiset{x}
    ensures multiset(once + [x]) == multiset(arr)
    ensures arr[|arr| - 1] == x && once == arr[..|arr| - 1] ==> once + [x] == arr
  {
    assert multiset(once + [x]) == multiset(once) + multiset{x};
    if arr[|arr| - 1] == x && once == arr[..|arr| - 1] {
      assert arr == arr[..|arr| - 1] + [arr[|arr| - 1]];
    }
  }

  // ---------------------------------------------------------------------------
  // Checking that everything is answered

  const NeedName := "Please enter your name."
  const MissingPrefix := "Please complete all questions. Missing: "

  /** Question `q` of section `sid` has at least one selection (a missing entry is not an
      array, so it counts as unanswered). */
  predicate Answered(answers: Answers, sid: string, q: Question) {
    sid in answers && q.id in answers[sid] && |answers[sid][q.id]| > 0
  }

  /** Every section has an entry. */
  predicate HasSections(answers: Answers, secs: seq<Section>) {
    forall i :: 0 <= i < |secs| ==> secs[i].id in answers
  }

  /** The text of the first unanswered question among `qs`. */
  function FirstMissingIn(answers: Answers, sid: string, qs: seq<Question>): Option<string>
    decreases |qs|
  {
    if qs == [] then None
    else if !Answered(answers, sid, qs[0]) then Some(qs[0].text)
    else FirstMissingIn(answers, sid, qs[1..])
  }

  /** The text of the first unanswered question, in section order and then question order. */
  function FirstMissing(answers: Answers, secs: seq<Section>): Option<string>
    decreases |secs|
  {
    if secs == [] then None
    else match FirstMissingIn(answers, secs[0].id, secs[0].questions)
      case Some(t) => Some(t)
      case None => FirstMissing(answers, secs[1..])
  }

  predicate AllAnswered(answers: Answers, secs: seq<Section>) {
    forall i, j :: 0 <= i < |secs| && 0 <= j < |secs[i].questions| ==> Answered(answers, secs[i].id, secs[i].questions[j])
  }

  /** Within a section: nothing is missing exactly when every question is answered, and a
      missing text is that of the first unanswered question. */
  lemma {:induction false} FirstMissingInExact(answers: Answers, sid: string, qs: seq<Question>)
    ensures FirstMissingIn(answers, sid, qs).None? <==> forall j :: 0 <= j < |qs| ==> Answered(answers, sid, qs[j])
    ensures FirstMissingIn(answers, sid, qs).Some? ==>
              exists j :: 0 <= j < |qs| && !Answered(answers, sid, qs[j]) && qs[j].text == FirstMissingIn(answers, sid, qs).value
                          && forall k :: 0 <= k < j ==> Answered(answers, sid, qs[k])
    decreases |qs|
  {
    if qs != [] && Answered(answers, sid, qs[0]) {
      FirstMissingInExact(answers, sid, qs[1..]);
      assert forall j :: 1 <= j < |qs| ==> qs[j] == qs[1..][j - 1];
      if FirstMissingIn(answers, sid, qs).Some? {
        var j :| 0 <= j < |qs[1..]| && !Answered(answers, sid, qs[1..][j]) && qs[1..][j].text == FirstMissingIn(answers, sid, qs).value
                 && forall k :: 0 <= k < j ==> Answered(answers, sid, qs[1..][k]);
        assert !Answered(answers, sid, qs[j + 1]) && qs[j + 1].text == FirstMissingIn(answers, sid, qs).value;
      }
    } else if qs != [] {
      assert !Answered(answers, sid, qs[0]);
    }
  }

  /** Over all sections: nothing is missing exactly when every question is answered, and a
      missing text is that of the first unanswered question in section order and then
      question order. */
  lemma {:induction false} FirstMissingExact(answers: Answers, secs: seq<Section>)
    ensures FirstMissing(answers, secs).None? <==> AllAnswered(answers, secs)
    ensures FirstMissing(answers, secs).Some? ==>
              exists i, j :: 0 <= i < |secs| && 0 <= j < |secs[i].questions|
                             && !Answered(answers, secs[i].id, secs[i].questions[j])
                             && secs[i].questions[j].text == FirstMissing(answers, secs).value
                             && AllAnswered(answers, secs[..i])
                             && forall k :: 0 <= k < j ==> Answered(answers, secs[i].id, secs[i].questions[k])
    decreases |secs|
  {
    if secs != [] {
      FirstMissingInExact(answers, secs[0].id, secs[0].questions);
      if FirstMissingIn(answers, secs[0].id, secs[0].questions).None? {
        FirstMissingExact(answers, secs[1..]);
        assert forall i :: 1 <= i < |secs| ==> secs[i] == secs[1..][i - 1];
        if FirstMissing(answers, secs).Some? {
          var i, j :| 0 <= i < |secs[1..]| && 0 <= j < |secs[1..][i].questions|
                      && !Answered(answers, secs[1..][i].id, secs[1..][i].questions[j])
                      && secs[1..][i].questions[j].text == FirstMissing(answers, secs).value
                      && AllAnswered(answers, secs[1..][..i])
                      && forall k :: 0 <= k < j ==> Answered(answers, secs[1..][i].id, secs[1..][i].questions[k]);
          assert secs[i + 1] == secs[1..][i];
          AllAnsweredCons(answers, secs, i);
        }
      } else {
        assert AllAnswered(answers, secs[..0]);
      }
    }
  }

  /** A section whose questions are all answered, followed by sections all answered. */
  lemma AllAnsweredCons(answers: Answers, secs: seq<Section>, i: nat)
    requires i < |secs|
    requires forall j :: 0 <= j < |secs[0].questions| ==> Answered(answers, secs[0].id, secs[0].questions[j])
    requires AllAnswered(answers, secs[1..][..i])
    ensures AllAnswered(answers, secs[..i + 1])
  {
    var pre := secs[..i + 1];
    forall a, b | 0 <= a < |pre| && 0 <= b < |pre[a].questions| ensures Answered(answers, pre[a].id, pre[a].questions[b]) {
      if a > 0 { assert pre[a] == secs[1..][..i][a - 1]; }
    }
  }

  /** The nested loops that build the initial answers: an empty entry per section, then an
      empty selection per question. */
  method BuildInitial(secs: seq<Section>) returns (initial: Answers)
    ensures initial == Initial(secs)
  {
    initial := map[];
    for i := 0 to |secs|
      invariant initial == Initial(secs[..i])
    {
      var s := secs[i];
      var lists: map<string, seq<string>> := map[];
      for j := 0 to |s.questions|
        invariant lists == EmptyLists(s.questions[..j])
      {
        assert s.questions[..j + 1][..j] == s.questions[..j];
        lists := lists[s.questions[j].id := []];
      }
      assert s.questions[..|s.questions|] == s.questions;
      assert secs[..i + 1][..i] == secs[..i];
      initial := initial[s.id := lists];
    }
    assert secs[..|secs|] == secs;
  }

  /** The nested loops of `validateAll` over the answers: the text of the first question,
      section by section, whose selection is missing or empty. */
  method FindMissing(answers: Answers, secs: seq<Section>) returns (missing: Option<string>)
    requires HasSections(answers, secs)
    ensures missing == FirstMissing(answers, secs)
  {
    for i := 0 to |secs|
      invariant FirstMissing(answers, secs) == FirstMissing(answers, secs[i..])
    {
      var s := secs[i];
      for j := 0 to |s.questions|
        invariant FirstMissingIn(answers, s.id, s.questions) == FirstMissingIn(answers, s.id, s.questions[j..])
      {
        var q := s.questions[j];
        if q.id !in answers[s.id] || |answers[s.id][q.id]| == 0 {
          return Some(q.text);
        }
      }
      assert s.questions[|s.questions|..] == [];
    }
    assert secs[|secs|..] == [];
    return None;
  }

  // ---------------------------------------------------------------------------
  // The page state

  /** Every section has an entry and no selection lists an option twice. */
  predicate WellFormed(answers: Answers) {
    HasSections(answers, Sections)
    && forall sid, qid :: sid in answers && qid in answers[sid] ==> NoDuplicates(answers[sid][qid])
  }

  /** The form's state: the name typed, the selections and the error line. */
  class Questionnaire {
    var name: string
    var answers: Answers
    var errorLine: string

    /** Every section has an entry and no selection lists an option twice. */
    predicate Valid()
      reads this
    {
      WellFormed(answers)
    }

    /** The page starts with no name, no error and one empty selection per question, built
        section by section and question by question. */
    constructor ()
      ensures name == "" && errorLine == ""
      ensures answers == Initial(Sections)
      ensures Valid()
    {
      name := "";
      errorLine := "";
      var initial := BuildInitial(Sections);
      SectionsCount();
      InitialAll(Sections);
      forall sid, qid | sid in initial && qid in initial[sid]
        ensures NoDuplicates(initial[sid][qid])
      {
        var i :| 0 <= i < |Sections| && Sections[i].id == sid;
        EmptyListsAll(Sections[i].questions);
      }
      answers := initial;
    }

    /** `toggleOption`: the selection of one question of an existing section, with `option`
        added when absent and removed when present; nothing else changes. */
    method ToggleOption(sectionId: string, questionId: string, option: string)
      requires Valid() && sectionId in answers
      modifies this
      ensures Valid()
      ensures name == old(name) && errorLine == old(errorLine)
      ensures answers == old(answers)[sectionId := old(answers)[sectionId][questionId := Toggled(Selected(old(answers), sectionId, questionId), option)]]
      ensures option in answers[sectionId][questionId] <==> option !in Selected(old(answers), sectionId, questionId)
    {
      var arr := Selected(answers, sectionId, questionId);
      var idx := IndexOf(arr, option);
      if idx == -1 {
        arr := arr + [option];
      } else {
        arr := arr[..idx] + arr[idx + 1..];
      }
      ToggleSelects(Selected(answers, sectionId, questionId), option);
      answers := answers[sectionId := answers[sectionId][questionId := arr]];
    }

    /** `validateAll`: a blank name fails first; then the first unanswered question, in
        section and question order, fails and is named; otherwise the error line is
        cleared. */
    method ValidateAll() returns (ok: bool)
      requires Valid()
      modifies this
      ensures name == old(name) && answers == old(answers) && Valid()
      ensures ok <==> Trim(name) != [] && FirstMissing(answers, Sections).None?
      ensures Trim(name) == [] ==> errorLine == NeedName
      ensures Trim(name) != [] ==>
                errorLine == (if FirstMissing(answers, Sections).Some? then MissingPrefix + FirstMissing(answers, Sections).value else "")
    {
      if name == [] || Trim(name) == [] {
        errorLine := NeedName;
        return false;
      }
      var missing := FindMissing(answers, Sections);
      if missing.Some? {
        errorLine := MissingPrefix + missing.value;
        return false;
      }
      errorLine := "";
      return true;
    }
  }

  /** `copy[sectionId][questionId] || []`: the current selection, empty when absent. */
  function Selected(answers: Answers, sid: string, qid: string): (r: seq<string>)
    requires sid in answers
    ensures qid in answers[sid] ==> r == answers[sid][qid]
    ensures qid !in answers[sid] ==> r == []
  {
    if qid in answers[sid] then answers[sid][qid] else []
  }

  /** Toggling touches only the targeted question: every other section and question keeps
      its selection. */
  lemma ToggleOnlyTarget(answers: Answers, sid: string, qid: string, option: string, s: string, q: string)
    requires sid in answers && s in answers && q in answers[s] && (s != sid || q != qid)
    ensures var updated := answers[sid := answers[sid][qid := Toggled(Selected(answers, sid, qid), option)]];
            s in updated && q in updated[s] && updated[s][q] == answers[s][q]
  {
  }
}
