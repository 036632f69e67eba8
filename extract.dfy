/** Pulling JSON text out of a language-model reply: the regular-expression rewrites used by
    scripts/generate_scheduled_tests.js, pages/api/generate-test.js and
    pages/api/generate-openai.js, written out as scans over the text. */
module Extract {
  import opened Wrappers
  import opened Strings

  /** A run of three backticks starts at `i`. */
  predicate FenceAt(s: string, i: int) {
    0 <= i && i + 3 <= |s| && s[i] == '`' && s[i + 1] == '`' && s[i + 2] == '`'
  }

  predicate NoFence(s: string) {
    forall i :: 0 <= i < |s| ==> !FenceAt(s, i)
  }

  /** The first fence starting at or after `from`. */
  function FirstFenceFrom(s: string, from: nat): (r: Option<nat>)
    ensures r.Some? ==> from <= r.value && FenceAt(s, r.value)
    ensures r.Some? ==> forall k :: from <= k < r.value ==> !FenceAt(s, k)
    ensures r.None? ==> forall k :: from <= k ==> !FenceAt(s, k)
    decreases |s| - from
  {
    if from + 3 > |s| then None
    else if FenceAt(s, from) then Some(from)
    else FirstFenceFrom(s, from + 1)
  }

  /** Length of the optional, case-insensitive `json` tag at `i`. */
  function JsonTagLen(s: string, i: nat): (r: nat)
    ensures r == 0 || (r == 4 && i + 4 <= |s| && ToLower(s[i..i + 4]) == "json")
  {
    if i + 4 <= |s| && ToLower(s[i..i + 4]) == "json" then 4 else 0
  }

  /** End of the maximal white-space run starting at `i`. */
  function SpaceRunEnd(s: string, i: nat): (r: nat)
    requires i <= |s|
    ensures i <= r <= |s|
    ensures forall k :: i <= k < r ==> IsSpace(s[k])
    ensures r == |s| || !IsSpace(s[r])
    decreases |s| - i
  {
    if i < |s| && IsSpace(s[i]) then SpaceRunEnd(s, i + 1) else i
  }

  /** Where the captured body of a fence opened at 0 begins: after the backticks, the
      optional tag and the white space, none of which is a backtick. */
  function BodyStart(s: string): (r: nat)
    requires FenceAt(s, 0)
    ensures 3 <= r <= |s|
    ensures forall k :: 3 <= k < r ==> s[k] != '`'
  {
    var t := JsonTagLen(s, 3);
    assert forall k :: 3 <= k < 3 + t ==> s[k] != '`' by {
      if t == 4 {
        forall k | 3 <= k < 7 ensures s[k] != '`' {
          assert ToLower(s[3..7])[k - 3] == LowerChar(s[k]);
        }
      }
    }
    SpaceRunEnd(s, 3 + t)
  }

  /** `s.replace(/```(?:json)?\s*([\s\S]*?)```/gi, "$1")`: each fenced block is replaced by
      its body. An opening fence with no closing fence after it ends the rewriting, since no
      later fence can have one either. */
  function StripFences(s: string): (r: string)
    ensures |r| <= |s|
    decreases |s|, 1
  {
    if |s| < 3 then s
    else if FenceAt(s, 0) then StripBlock(s)
    else [s[0]] + StripFences(s[1..])
  }

  /** The rewrite from a fence at the front: the block up to the first closing fence
      becomes its body. */
  function StripBlock(s: string): (r: string)
    requires FenceAt(s, 0)
    ensures |r| <= |s|
    decreases |s|, 0
  {
    match FirstFenceFrom(s, 3)
    case None => s
    case Some(q) =>
      var start := BodyStart(s);
      assert start <= q by { assert s[q] == '`'; }
      s[start..q] + StripFences(s[q + 3..])
  }

  /** Text without fences is left as it is. */
  lemma {:induction false} StripFencesNoFence(s: string)
    requires NoFence(s)
    ensures StripFences(s) == s
    decreases |s|
  {
    if |s| >= 3 {
      assert !FenceAt(s, 0);
      assert NoFence(s[1..]) by {
        forall i | 0 <= i < |s| - 1 ensures !FenceAt(s[1..], i) {
          assert FenceAt(s[1..], i) ==> FenceAt(s, i + 1);
        }
      }
      StripFencesNoFence(s[1..]);
      assert [s[0]] + s[1..] == s;
    }
  }

  /** Splitting a non-empty prefix into its first character and the rest. */
  lemma ConsSplit(a: string, s: string, y: string)
    requires a != []
    ensures (a + s)[0] == a[0] && (a + s)[1..] == a[1..] + s
    ensures [a[0]] + (a[1..] + y) == a + y
  {
    assert a == [a[0]] + a[1..];
  }

  /** A text whose next two characters would not complete a fence anywhere in it: no
      position of `a` can start a fence, whatever follows. */
  lemma NoFenceAhead(a: string, s: string)
    requires a != [] && NoFence(a + "``")
    ensures !FenceAt(a + s, 0) && NoFence(a[1..] + "``")
  {
    var p := a + "``";
    forall k | 0 <= k < 3 && k < |a + s| ensures (a + s)[k] == '`' ==> p[k] == '`' {
      if k < |a| { assert (a + s)[k] == a[k] == p[k]; }
    }
    assert FenceAt(a + s, 0) ==> FenceAt(p, 0);
    assert a[1..] + "``" == p[1..];
    forall i | 0 <= i < |p| - 1 ensures !FenceAt(p[1..], i) {
      assert FenceAt(p[1..], i) ==> FenceAt(p, i + 1);
    }
  }

  lemma StripFencesCons(t: string)
    requires t != [] && !FenceAt(t, 0)
    ensures StripFences(t) == [t[0]] + StripFences(t[1..])
  {
  }


  /** Text in front of the first fence is kept as it is. */
  lemma {:induction false} StripFencesPrefix(a: string, s: string)
    requires NoFence(a + "``")
    ensures StripFences(a + s) == a + StripFences(s)
    decreases |a|
  {
    if a == [] {
      assert a + s == s;
    } else {
      NoFenceAhead(a, s);
      StripFencesPrefix(a[1..], s);
      StripFencesCons(a + s);
      ConsSplit(a, s, StripFences(s));
    }
  }

  /** The body a fenced block captures from the text `x` between its fences: what follows
      an optional, case-insensitive `json` tag and the white space after it. */
  function CapturedBody(x: string): string {
    x[SpaceRunEnd(x, JsonTagLen(x, 0))..]
  }

  lemma {:induction false} SpaceRunShift(s: string, off: nat, x: string, i: nat)
    requires off + |x| < |s| && s[off..off + |x|] == x && !IsSpace(s[off + |x|]) && i <= |x|
    ensures SpaceRunEnd(s, off + i) == off + SpaceRunEnd(x, i)
    decreases |x| - i
  {
    if i < |x| {
      assert s[off + i] == x[i];
      if IsSpace(x[i]) { SpaceRunShift(s, off, x, i + 1); }
    }
  }

  /** A fenced block, whose inside holds no fence, is replaced by the body it captures;
      rewriting goes on after its closing fence. */
  lemma StripFencesBlock(x: string, rest: string)
    requires NoFence(x + "``")
    ensures StripFences("```" + x + "```" + rest) == CapturedBody(x) + StripFences(rest)
  {
    var s := "```" + x + "```" + rest;
    var n := |x|;
    BlockParts(s, x, rest);
    FirstCloseOfBlock(s, x);
    TagOfBlock(s, x);
    var t := JsonTagLen(x, 0);
    SpaceRunShift(s, 3, x, t);
    var e := SpaceRunEnd(x, t);
    assert BodyStart(s) == 3 + e;
    StripClosedBlock(s, 3 + n);
    InnerSlice(s, x, e);
  }

  lemma StripClosedBlock(s: string, q: nat)
    requires FenceAt(s, 0) && FirstFenceFrom(s, 3) == Some(q)
    ensures BodyStart(s) <= q && StripFences(s) == s[BodyStart(s)..q] + StripFences(s[q + 3..])
  {
    assert StripFences(s) == StripBlock(s);
  }

  lemma InnerSlice(s: string, x: string, e: nat)
    requires 3 + |x| <= |s| && s[3..3 + |x|] == x && e <= |x|
    ensures s[3 + e..3 + |x|] == x[e..]
  {
    assert s[3 + e..3 + |x|] == s[3..3 + |x|][e..];
  }

  lemma BlockParts(s: string, x: string, rest: string)
    requires s == "```" + x + "```" + rest
    ensures |s| == |x| + 6 + |rest| && FenceAt(s, 0) && FenceAt(s, 3 + |x|)
    ensures s[3..3 + |x|] == x && s[3..3 + |x| + 2] == x + "``" && s[3 + |x| + 3..] == rest
  {
  }

  /** The closing fence of a block is the first fence after the opening one. */
  lemma FirstCloseOfBlock(s: string, x: string)
    requires 3 + |x| + 3 <= |s| && FenceAt(s, 3 + |x|) && s[3..3 + |x| + 2] == x + "``" && NoFence(x + "``")
    ensures FirstFenceFrom(s, 3) == Some(3 + |x|)
  {
    forall k | 3 <= k < 3 + |x| ensures !FenceAt(s, k) {
      assert FenceAt(s, k) ==> FenceAt(x + "``", k - 3);
    }
  }

  /** A `json` tag is read off the inside of the block alone: a tag cut short by the
      closing fence is no tag. */
  lemma TagOfBlock(s: string, x: string)
    requires 3 + |x| < |s| && s[3..3 + |x|] == x && s[3 + |x|] == '`'
    ensures JsonTagLen(s, 3) == JsonTagLen(x, 0)
  {
    var n := |x|;
    if n >= 4 {
      assert s[3..7] == x[..4];
    } else if 7 <= |s| {
      assert ToLower(s[3..7])[n] == LowerChar(s[3 + n]) == '`';
      assert '`' !in "json";
    }
  }

  /** An opening fence that no later fence closes leaves the text as it is. */
  lemma StripFencesUnclosed(x: string)
    requires NoFence(x)
    ensures StripFences("```" + x) == "```" + x
  {
    var s := "```" + x;
    forall k | 3 <= k ensures !FenceAt(s, k) {
      assert FenceAt(s, k) ==> FenceAt(x, k - 3);
    }
    assert FenceAt(s, 0);
  }

  lemma NoBacktickNoFence(x: string)
    requires '`' !in x
    ensures NoFence(x + "``")
  {
    forall i | 0 <= i < |x| + 2 ensures !FenceAt(x + "``", i) {
      if i < |x| { assert (x + "``")[i] == x[i]; }
    }
  }

  /** The rewrite of a ```json fenced block without backticks inside keeps the text from
      where the captured body starts, after the tag and a run of white space, up to the
      closing fence. */
  lemma FencedBodyKept(body: string)
    requires '`' !in body
    ensures var x := "json\n" + body + "\n";
            var e := SpaceRunEnd(x, 4);
            AllSpace(x[4..e]) && StripFences("```json\n" + body + "\n```") == x[e..]
  {
    var x := "json\n" + body + "\n";
    assert '`' !in x && x[..4] == "json";
    StripJsonBlock(x);
    JsonFenceShape(body);
  }

  lemma StripJsonBlock(x: string)
    requires '`' !in x && |x| >= 4 && x[..4] == "json"
    ensures StripFences("```" + x + "```") == x[SpaceRunEnd(x, 4)..]
  {
    NoBacktickNoFence(x);
    StripFencesLoneBlock(x);
    JsonTagOfJson(x);
  }

  lemma JsonFenceShape(body: string)
    ensures "```json\n" + body + "\n```" == "```" + ("json\n" + body + "\n") + "```"
  {
  }

  /** A text that is one fenced block becomes the body it captures. */
  lemma StripFencesLoneBlock(x: string)
    requires NoFence(x + "``")
    ensures StripFences("```" + x + "```") == CapturedBody(x)
  {
    StripFencesBlock(x, "");
    assert "```" + x + "```" + "" == "```" + x + "```";
    assert StripFences("") == "";
    assert CapturedBody(x) + "" == CapturedBody(x);
  }

  lemma JsonTagOfJson(x: string)
    requires |x| >= 4 && x[..4] == "json"
    ensures JsonTagLen(x, 0) == 4
  {
  }

  /** So the rewrite keeps the body and the line breaks around it, less some white space
      at the front. */
  lemma StripOfFenced(body: string)
    requires '`' !in body
    ensures var m := "\n" + body + "\n";
            exists pre, rest :: AllSpace(pre) && pre + rest == m && StripFences("```json\n" + body + "\n```") == rest
  {
    FencedBodyKept(body);
    var x := "json\n" + body + "\n";
    var e := SpaceRunEnd(x, 4);
    JsonTagged(body, e);
    var pre, rest := x[4..e], x[e..];
    assert AllSpace(pre) && pre + rest == "\n" + body + "\n";
  }

  lemma JsonTagged(body: string, e: nat)
    requires 4 <= e <= |body| + 6
    ensures var x := "json\n" + body + "\n"; x[4..e] + x[e..] == "\n" + body + "\n"
  {
    var x := "json\n" + body + "\n";
    assert x[4..e] + x[e..] == x[4..];
  }

  /** A reply wrapped as a ```json fenced block is unwrapped to its body, up to the
      surrounding white space that the callers trim away. */
  lemma UnwrapFenced(body: string)
    requires '`' !in body
    ensures Trim(StripFences("```json\n" + body + "\n```")) == Trim(body)
  {
    StripOfFenced(body);
    var m := "\n" + body + "\n";
    var pre, rest :| AllSpace(pre) && pre + rest == m && StripFences("```json\n" + body + "\n```") == rest;
    calc {
      Trim(rest);
      { TrimStartOfSpacePrefix(pre, rest); }
      Trim(m);
      { TrimOfPadded("\n", body, "\n"); }
      Trim(body);
    }
  }

  /** The first backtick at or after `from`. */
  function FirstBacktickFrom(s: string, from: nat): (r: Option<nat>)
    ensures r.Some? ==> from <= r.value < |s| && s[r.value] == '`'
    ensures r.Some? ==> forall k :: from <= k < r.value ==> s[k] != '`'
    ensures r.None? ==> forall k :: from <= k < |s| ==> s[k] != '`'
    decreases |s| - from
  {
    if from >= |s| then None
    else if s[from] == '`' then Some(from)
    else FirstBacktickFrom(s, from + 1)
  }

  /** `s.replace(/`([^`]+)`/g, "$1")`: a backtick-quoted span with a non-empty body is
      replaced by the body. */
  function Unquote(s: string): (r: string)
    ensures |r| <= |s|
    decreases |s|
  {
    if s == [] then []
    else if s[0] == '`' then
      match FirstBacktickFrom(s, 1)
      case None => s
      case Some(q) => if q >= 2 then s[1..q] + Unquote(s[q + 1..]) else [s[0]] + Unquote(s[1..])
    else [s[0]] + Unquote(s[1..])
  }

  /** Text without backticks is left as it is. */
  lemma {:induction false} UnquotePlain(s: string)
    requires '`' !in s
    ensures Unquote(s) == s
    decreases |s|
  {
    if s != [] {
      assert s[0] in s;
      assert '`' !in s[1..] by { assert forall x :: x in s[1..] ==> x in s; }
      UnquotePlain(s[1..]);
      assert [s[0]] + s[1..] == s;
    }
  }

  /** A backtick-quoted span is unquoted. */
  lemma {:induction false} UnquoteSpan(x: string)
    requires x != [] && '`' !in x
    ensures Unquote("`" + x + "`") == x
  {
    var s := "`" + x + "`";
    assert forall k :: 1 <= k < |s| - 1 ==> s[k] != '`' by {
      forall k | 1 <= k < |s| - 1 ensures s[k] != '`' { assert s[k] == x[k - 1]; }
    }
    var q := FirstBacktickFrom(s, 1);
    assert q == Some(|s| - 1) by { assert q.Some? ==> s[q.value] == '`'; assert s[|s| - 1] == '`'; }
    assert s[1..|s| - 1] == x;
    assert s[|s|..] == [];
  }

  lemma UnquoteCons(t: string)
    requires t != [] && t[0] != '`'
    ensures Unquote(t) == [t[0]] + Unquote(t[1..])
  {
  }

  /** Text in front of the first backtick is kept as it is. */
  lemma {:induction false} UnquotePrefix(a: string, s: string)
    requires '`' !in a
    ensures Unquote(a + s) == a + Unquote(s)
    decreases |a|
  {
    if a == [] {
      assert a + s == s;
    } else {
      assert a[0] in a && '`' !in a[1..] by { assert forall c :: c in a[1..] ==> c in a; }
      UnquotePrefix(a[1..], s);
      UnquoteCons(a + s);
      ConsSplit(a, s, Unquote(s));
    }
  }

  /** A quoted span with a non-empty body is replaced by the body; rewriting goes on after
      its closing backtick. */
  lemma UnquoteSpanThen(x: string, rest: string)
    requires x != [] && '`' !in x
    ensures Unquote("`" + x + "`" + rest) == x + Unquote(rest)
  {
    var s := "`" + x + "`" + rest;
    forall k | 1 <= k < 1 + |x| ensures s[k] != '`' { assert s[k] == x[k - 1]; }
    assert s[1 + |x|] == '`';
    assert FirstBacktickFrom(s, 1) == Some(1 + |x|);
    assert s[1..1 + |x|] == x;
    assert s[2 + |x|..] == rest;
  }

  /** Two backticks in a row quote nothing: the first is kept and the second may open a
      span. */
  lemma UnquoteDoubled(rest: string)
    ensures Unquote("``" + rest) == "`" + Unquote("`" + rest)
  {
    var s := "``" + rest;
    assert FirstBacktickFrom(s, 1) == Some(1);
    assert s[1..] == "`" + rest;
  }

  /** A backtick that no later backtick closes leaves the text as it is. */
  lemma UnquoteUnclosed(x: string)
    requires '`' !in x
    ensures Unquote("`" + x) == "`" + x
  {
    var s := "`" + x;
    forall k | 1 <= k < |s| ensures s[k] != '`' { assert s[k] == x[k - 1]; }
    assert FirstBacktickFrom(s, 1).None?;
  }

  /** `stripMarkdownBlocks` of pages/api/generate-test.js. */
  function StripMarkdownBlocks(text: string): string {
    Trim(Unquote(StripFences(text)))
  }

  function FirstIndex(s: string, c: char): (r: Option<nat>)
    ensures r.Some? ==> r.value < |s| && s[r.value] == c && forall k :: 0 <= k < r.value ==> s[k] != c
    ensures r.None? ==> forall k :: 0 <= k < |s| ==> s[k] != c
    decreases |s|
  {
    if s == [] then None
    else if s[0] == c then Some(0)
    else match FirstIndex(s[1..], c)
      case None => None
      case Some(i) => Some(i + 1)
  }

  function LastIndex(s: string, c: char): (r: Option<nat>)
    ensures r.Some? ==> r.value < |s| && s[r.value] == c && forall k :: r.value < k < |s| ==> s[k] != c
    ensures r.None? ==> forall k :: 0 <= k < |s| ==> s[k] != c
    decreases |s|
  {
    if s == [] then None
    else if s[|s| - 1] == c then Some(|s| - 1)
    else LastIndex(s[..|s| - 1], c)
  }

  /** `s.match(/(\[[\s\S]*\])/m)` and its `{ }` twin: the greedy match runs from the first
      `open` to the last `close`; it exists exactly when some `open` precedes some `close`.
      The result holds the first and last index of the match. */
  function BracketBounds(s: string, open: char, close: char): (r: Option<(nat, nat)>)
    ensures r.Some? ==> r.value.0 < r.value.1 < |s| && s[r.value.0] == open && s[r.value.1] == close
    ensures r.Some? ==> (forall k :: 0 <= k < r.value.0 ==> s[k] != open) && (forall k :: r.value.1 < k < |s| ==> s[k] != close)
    ensures r.Some? <==> exists i, j :: 0 <= i < j < |s| && s[i] == open && s[j] == close
  {
    match (FirstIndex(s, open), LastIndex(s, close))
    case (Some(i), Some(j)) => if i < j then Some((i, j)) else None
    case _ => None
  }

  /** The matched text itself. */
  function BracketSpan(s: string, open: char, close: char): (r: Option<string>)
    ensures r.Some? ==> |r.value| >= 2 && r.value[0] == open && r.value[|r.value| - 1] == close
    ensures r.Some? <==> BracketBounds(s, open, close).Some?
  {
    match BracketBounds(s, open, close)
    case Some((i, j)) => Some(s[i..j + 1])
    case None => None
  }

  /** The span search of `extractFirstJson` on already cleaned text: an array span if
      there is one, else an object span. */
  function JsonSpan(cleaned: string): (r: Option<string>)
    ensures r.Some? ==> |r.value| >= 2
    ensures r.Some? ==>
              (r.value[0] == '[' && r.value[|r.value| - 1] == ']') || (r.value[0] == '{' && r.value[|r.value| - 1] == '}')
    ensures BracketSpan(cleaned, '[', ']').Some? ==> r == BracketSpan(cleaned, '[', ']')
    ensures r.None? <==> BracketSpan(cleaned, '[', ']').None? && BracketSpan(cleaned, '{', '}').None?
  {
    var arr := BracketSpan(cleaned, '[', ']');
    if arr.Some? then arr else BracketSpan(cleaned, '{', '}')
  }

  /** `extractFirstJson` of pages/api/generate-test.js. */
  function ExtractFirstJson(text: string): Option<string> {
    JsonSpan(StripMarkdownBlocks(text))
  }

  /** A text that is itself an array literal is its own span. */
  lemma JsonSpanOfArray(a: string)
    requires |a| >= 2 && a[0] == '[' && a[|a| - 1] == ']'
    ensures JsonSpan(a) == Some(a)
  {
    var fi := FirstIndex(a, '[');
    var li := LastIndex(a, ']');
    assert fi == Some(0);
    assert li == Some(|a| - 1);
    assert a[0..|a|] == a;
  }

  /** Cleaning a fenced reply whose body has no backtick and no surrounding white space
      gives back the body. */
  lemma StripFencedBody(a: string)
    requires '`' !in a && a != [] && !IsSpace(a[0]) && !IsSpace(a[|a| - 1])
    ensures StripMarkdownBlocks("```json\n" + a + "\n```") == a
  {
    TrimNoEdgeSpace(a);
    UnwrapFenced(a);
    StrippedFenceChars(a);
    UnquotePlain(StripFences("```json\n" + a + "\n```"));
  }

  /** A model reply that is a fenced JSON array yields exactly that array text. */
  lemma ExtractFencedArray(a: string)
    requires '`' !in a && |a| >= 2 && a[0] == '[' && a[|a| - 1] == ']'
    ensures ExtractFirstJson("```json\n" + a + "\n```") == Some(a)
  {
    var reply := "```json\n" + a + "\n```";
    StripFencedBody(a);
    assert StripMarkdownBlocks(reply) == a;
    JsonSpanOfArray(a);
    assert ExtractFirstJson(reply) == JsonSpan(a);
  }

  lemma StrippedFenceChars(body: string)
    requires '`' !in body
    ensures '`' !in StripFences("```json\n" + body + "\n```")
  {
    FencedBodyKept(body);
    var x := "json\n" + body + "\n";
    var t := x[SpaceRunEnd(x, 4)..];
    forall k | 0 <= k < |t| ensures t[k] != '`' {
      var i := SpaceRunEnd(x, 4) + k;
      assert t[k] == x[i];
      if 5 <= i < |x| - 1 { assert x[i] == body[i - 5]; }
    }
  }

  /** `text.replace(/```(?:json|js|typescript)?/gi, "")`: every fence is deleted together with
      a following `json`, `js` or `typescript` tag (tried in that order, any letter case). */
  function TagAfterFence(t: string): (r: nat)
    ensures r <= |t|
  {
    if |t| >= 4 && ToLower(t[..4]) == "json" then 4
    else if |t| >= 2 && ToLower(t[..2]) == "js" then 2
    else if |t| >= 10 && ToLower(t[..10]) == "typescript" then 10
    else 0
  }

  function RemoveTaggedFences(s: string): (r: string)
    ensures |r| <= |s|
    decreases |s|
  {
    if |s| < 3 then s
    else if FenceAt(s, 0) then
      var rest := s[3..];
      RemoveTaggedFences(rest[TagAfterFence(rest)..])
    else [s[0]] + RemoveTaggedFences(s[1..])
  }

  /** `text.replace(/```/g, "")`: one left-to-right pass deleting fences. */
  function RemoveFences(s: string): (r: string)
    ensures |r| <= |s|
    decreases |s|
  {
    if |s| < 3 then s
    else if FenceAt(s, 0) then RemoveFences(s[3..])
    else [s[0]] + RemoveFences(s[1..])
  }

  /** After the deleting pass nothing of a fence-free text changes. */
  lemma {:induction false} RemoveFencesNoFence(s: string)
    requires NoFence(s)
    ensures RemoveTaggedFences(s) == s && RemoveFences(s) == s
    decreases |s|
  {
    if |s| >= 3 {
      assert !FenceAt(s, 0);
      assert NoFence(s[1..]) by {
        forall i | 0 <= i < |s| - 1 ensures !FenceAt(s[1..], i) {
          assert FenceAt(s[1..], i) ==> FenceAt(s, i + 1);
        }
      }
      RemoveFencesNoFence(s[1..]);
      assert [s[0]] + s[1..] == s;
    }
  }

  /** Both deleting passes keep the text in front of the first fence as it is. */
  lemma RemoveFencesPrefix(a: string, s: string)
    requires NoFence(a + "``")
    ensures RemoveFences(a + s) == a + RemoveFences(s)
    ensures RemoveTaggedFences(a + s) == a + RemoveTaggedFences(s)
  {
    RemoveUntaggedPrefix(a, s);
    RemoveTaggedPrefix(a, s);
  }

  lemma RemoveFencesCons(t: string)
    requires t != [] && !FenceAt(t, 0)
    ensures RemoveFences(t) == [t[0]] + RemoveFences(t[1..])
  {
  }

  lemma RemoveTaggedFencesCons(t: string)
    requires t != [] && !FenceAt(t, 0)
    ensures RemoveTaggedFences(t) == [t[0]] + RemoveTaggedFences(t[1..])
  {
  }

  lemma {:induction false} RemoveUntaggedPrefix(a: string, s: string)
    requires NoFence(a + "``")
    ensures RemoveFences(a + s) == a + RemoveFences(s)
    decreases |a|
  {
    if a == [] {
      assert a + s == s;
    } else {
      NoFenceAhead(a, s);
      RemoveUntaggedPrefix(a[1..], s);
      RemoveFencesCons(a + s);
      ConsSplit(a, s, RemoveFences(s));
    }
  }

  lemma {:induction false} RemoveTaggedPrefix(a: string, s: string)
    requires NoFence(a + "``")
    ensures RemoveTaggedFences(a + s) == a + RemoveTaggedFences(s)
    decreases |a|
  {
    if a == [] {
      assert a + s == s;
    } else {
      NoFenceAhead(a, s);
      RemoveTaggedPrefix(a[1..], s);
      RemoveTaggedFencesCons(a + s);
      ConsSplit(a, s, RemoveTaggedFences(s));
    }
  }

  /** Each pass deletes the first fence, the tagging pass together with the tag after it,
      and goes on with the rest. */
  lemma RemoveFenceAfter(a: string, b: string)
    requires NoFence(a + "``")
    ensures RemoveFences(a + "```" + b) == a + RemoveFences(b)
    ensures RemoveTaggedFences(a + "```" + b) == a + RemoveTaggedFences(b[TagAfterFence(b)..])
  {
    RemoveFencesPrefix(a, "```" + b);
    assert a + "```" + b == a + ("```" + b);
    var s := "```" + b;
    assert FenceAt(s, 0);
    assert s[3..] == b;
  }

  /** A backtick at the front of what a pass leaves comes from the front of its input. */
  lemma {:induction false} RemoveFencesLead(s: string)
    ensures var r := RemoveFences(s);
            (|r| >= 1 && r[0] == '`' ==> s[0] == '`') && (|r| >= 2 && r[0] == '`' && r[1] == '`' ==> s[1] == '`')
    ensures var r := RemoveTaggedFences(s);
            (|r| >= 1 && r[0] == '`' ==> s[0] == '`') && (|r| >= 2 && r[0] == '`' && r[1] == '`' ==> s[1] == '`')
    decreases |s|
  {
    if |s| >= 3 && !FenceAt(s, 0) { RemoveFencesLead(s[1..]); }
  }

  /** No fence is left after either pass: deleting one never joins backticks into another. */
  lemma {:induction false} RemoveFencesLeaveNone(s: string)
    ensures NoFence(RemoveFences(s)) && NoFence(RemoveTaggedFences(s))
    decreases |s|
  {
    if |s| >= 3 {
      if FenceAt(s, 0) {
        var rest := s[3..];
        RemoveFencesLeaveNone(rest);
        RemoveFencesLeaveNone(rest[TagAfterFence(rest)..]);
      } else {
        RemoveFencesLeaveNone(s[1..]);
        RemoveFencesLead(s[1..]);
        var r1, r2 := RemoveFences(s[1..]), RemoveTaggedFences(s[1..]);
        KeptFrontNoFence(s, r1);
        KeptFrontNoFence(s, r2);
      }
    }
  }

  lemma KeptFrontNoFence(s: string, r: string)
    requires |s| >= 3 && !FenceAt(s, 0) && NoFence(r)
    requires (|r| >= 1 && r[0] == '`' ==> s[1] == '`') && (|r| >= 2 && r[0] == '`' && r[1] == '`' ==> s[2] == '`')
    ensures NoFence([s[0]] + r)
  {
    var t := [s[0]] + r;
    forall i | 0 <= i < |t| ensures !FenceAt(t, i) {
      if i >= 1 { assert FenceAt(t, i) ==> FenceAt(r, i - 1); }
    }
  }

  /** A bracketed text between a prefix without `open` and a suffix without `close` is
      exactly the span the greedy match finds. */
  lemma BracketSpanOfPadded(pre: string, a: string, post: string, open: char, close: char)
    requires |a| >= 2 && a[0] == open && a[|a| - 1] == close
    requires open !in pre && close !in post
    ensures BracketSpan(pre + a + post, open, close) == Some(a)
  {
    var s := pre + a + post;
    assert s[|pre|] == open && s[|pre| + |a| - 1] == close;
    var i := FirstIndex(s, open);
    var j := LastIndex(s, close);
    assert forall k :: 0 <= k < |pre| ==> s[k] == pre[k];
    assert forall k :: |pre| + |a| <= k < |s| ==> s[k] == post[k - |pre| - |a|];
    assert i == Some(|pre|) && j == Some(|pre| + |a| - 1);
    assert s[|pre|..|pre| + |a|] == a;
  }

  /** The tag-deleting pass leaves fence-free text in front of a closing fence as it is and
      deletes the fence. */
  lemma {:induction false} RemoveTaggedBeforeFence(m: string)
    requires forall i :: 0 <= i < |m| ==> !FenceAt(m + "```", i)
    ensures RemoveTaggedFences(m + "```") == m
    decreases |m|
  {
    var s := m + "```";
    if m == [] {
      assert FenceAt(s, 0);
      assert s[3..] == [];
    } else {
      assert !FenceAt(s, 0);
      assert s[1..] == m[1..] + "```";
      forall i | 0 <= i < |m| - 1 ensures !FenceAt(m[1..] + "```", i) {
        assert FenceAt(m[1..] + "```", i) ==> FenceAt(s, i + 1);
      }
      RemoveTaggedBeforeFence(m[1..]);
      assert [m[0]] + m[1..] == m;
    }
  }

  /** A reply fenced as `json` loses its fences and its tag in the two deleting passes. */
  lemma RemoveTaggedFencesOfFenced(o: string)
    requires NoFence(o)
    ensures RemoveFences(RemoveTaggedFences("```json\n" + o + "\n```")) == "\n" + o + "\n"
  {
    var m := "\n" + o + "\n";
    var s := "```json\n" + o + "\n```";
    assert s == "```" + ("json" + (m + "```"));
    assert FenceAt(s, 0);
    var rest := s[3..];
    assert rest == "json" + (m + "```");
    assert ToLower(rest[..4]) == "json";
    assert rest[4..] == m + "```";
    assert NoFence(m) by {
      forall i | 0 <= i < |m| ensures !FenceAt(m, i) {
        if 1 <= i < |m| - 3 { assert m[i..i + 3] == o[i - 1..i + 2]; assert FenceAt(m, i) ==> FenceAt(o, i - 1); }
      }
    }
    forall i | 0 <= i < |m| ensures !FenceAt(m + "```", i) {
      if i < |m| - 3 { assert FenceAt(m + "```", i) ==> FenceAt(m, i); }
      else { assert (m + "```")[|m| - 1] == '\n'; }
    }
    RemoveTaggedBeforeFence(m);
    RemoveFencesNoFence(m);
  }
}
