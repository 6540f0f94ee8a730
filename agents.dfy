/**
 * Structured-output extraction shared by the agent stages (agent/agents/__init__.py):
 * the model's free text is cleaned of markdown code fences and parsed as JSON,
 * falling back to the outermost `{ ... }` span; parse errors become `None`.
 */
module Agents {
  import opened Wrappers
  import opened Text
  import Json

  /** Three backticks start at index `i` of `s`. */
  predicate FenceAt(s: string, i: int) {
    0 <= i && i + 3 <= |s| && s[i] == '`' && s[i + 1] == '`' && s[i + 2] == '`'
  }

  /** `s` contains no "```". */
  predicate FenceFree(s: string) {
    forall i :: 0 <= i < |s| ==> !FenceAt(s, i)
  }

  /** `s` begins with "json". */
  predicate OpensJsonTag(s: string) {
    |s| >= 4 && s[0] == 'j' && s[1] == 's' && s[2] == 'o' && s[3] == 'n'
  }

  /**
   * `re.sub(r"```(?:json)?\s*", "", s)`: scanning left to right, every "```",
   * together with a directly following "json" and any whitespace after that, is removed.
   */
  function StripFences(s: string): (r: string)
    ensures |r| <= |s|
    decreases |s|
  {
    if FenceAt(s, 0) then
      var rest := s[3..];
      var afterTag := if OpensJsonTag(rest) then rest[4..] else rest;
      StripFences(TrimLeft(afterTag))
    else if s == [] then []
    else [s[0]] + StripFences(s[1..])
  }

  /** `re.sub(...).strip().rstrip("`")`: the text both parse attempts start from. */
  function Clean(text: string): (r: string)
    ensures |r| <= |text|
    ensures r != [] ==> !IsSpace(r[0]) && r[|r| - 1] != '`'
  {
    RStripChar(Strip(StripFences(text)), '`')
  }

  /**
   * The slice `stripped[start:end]` with `start = find("{")` and `end = rfind("}") + 1`,
   * present only when `start >= 0 and end > start`.
   */
  function BraceSpan(s: string): (r: Option<string>)
    ensures r.Some? <==> '{' in s && '}' in s && FindChar(s, '{') < RFindChar(s, '}')
    ensures r.Some? ==> && |r.value| >= 2 && r.value[0] == '{' && r.value[|r.value| - 1] == '}'
                        && '{' !in s[..FindChar(s, '{')] && '}' !in s[RFindChar(s, '}') + 1..]
                        && r.value == s[FindChar(s, '{')..RFindChar(s, '}') + 1]
  {
    var start := FindChar(s, '{');
    var end := RFindChar(s, '}') + 1;
    if start >= 0 && end > start then Some(s[start..end]) else None
  }

  /** A parse that yields JSON `null` returns Python's `None`, like a failed one. */
  function AsReturned(parsed: Option<Json.Value>): (r: Option<Json.Value>)
    ensures r.Some? <==> parsed.Some? && parsed.value != Json.Null
    ensures r.Some? ==> r == parsed
  {
    if parsed == Some(Json.Null) then None else parsed
  }

  /**
   * `extract_json(text)`. `loads` is `json.loads`, given as a partial function:
   * `None` stands for the `JSONDecodeError`/`ValueError` that the source catches.
   */
  function ExtractJson(text: string, loads: string -> Option<Json.Value>): (r: Option<Json.Value>)
    ensures r.Some? ==> r.value != Json.Null
    ensures loads(Clean(text)).Some? ==> r == AsReturned(loads(Clean(text)))
    ensures r.Some? && r != loads(Clean(text)) ==>
              loads(Clean(text)).None? && BraceSpan(Clean(text)).Some?
              && loads(BraceSpan(Clean(text)).value) == r
    ensures r.None? <==>
              || loads(Clean(text)) == Some(Json.Null)
              || (loads(Clean(text)).None?
                  && (BraceSpan(Clean(text)).None?
                      || AsReturned(loads(BraceSpan(Clean(text)).value)).None?))
  {
    var stripped := Clean(text);
    var direct := loads(stripped);
    if direct.Some? then AsReturned(direct)
    else match BraceSpan(stripped)
      case Some(span) => AsReturned(loads(span))
      case None => None
  }

  // ---------------------------------------------------------------------------
  // Properties of the fence removal
  // ---------------------------------------------------------------------------

  lemma NoFenceLater(c: char, t: string)
    requires FenceFree(t) && !FenceAt([c] + t, 0)
    ensures FenceFree([c] + t)
  {
    var ct := [c] + t;
    forall i ensures !FenceAt(ct, i) {
      if i >= 1 { assert !FenceAt(t, i - 1); }
    }
  }

  lemma FenceFreeSuffix(s: string, k: nat)
    requires FenceFree(s) && k <= |s|
    ensures FenceFree(s[k..])
  {
    forall i ensures !FenceAt(s[k..], i) {
      assert !FenceAt(s, k + i);
    }
  }

  /** The output of `StripFences` keeps the first character of an unfenced input. */
  lemma StripFencesHead(s: string)
    requires s != [] && !FenceAt(s, 0)
    ensures StripFences(s) == [s[0]] + StripFences(s[1..])
  {
  }

  /** No "```" survives the substitution, even where removals bring backticks together. */
  lemma {:induction false} StripFencesLeavesNoFence(s: string)
    ensures FenceFree(StripFences(s))
    decreases |s|
  {
    if FenceAt(s, 0) {
      var rest := s[3..];
      var afterTag := if OpensJsonTag(rest) then rest[4..] else rest;
      StripFencesLeavesNoFence(TrimLeft(afterTag));
    } else if s != [] {
      var t := s[1..];
      StripFencesLeavesNoFence(t);
      var r := StripFences(t);
      StripFencesHead(s);
      if s[0] == '`' && t != [] {
        // A fence at the front of the output would need two more backticks from r.
        assert !FenceAt(t, 0);
        StripFencesHead(t);
        if s[1] == '`' && |t| >= 2 {
          var u := t[1..];
          assert u[0] != '`';
          StripFencesHead(u);
          assert r[1] == s[2];
        }
      }
      NoFenceLater(s[0], r);
    }
  }

  /** On fence-free text the substitution changes nothing. */
  lemma {:induction false} StripFencesOfFenceFree(s: string)
    requires FenceFree(s)
    ensures StripFences(s) == s
    decreases |s|
  {
    if s != [] {
      assert s[0..] == s;
      FenceFreeSuffix(s, 1);
      StripFencesOfFenceFree(s[1..]);
    }
  }

  /** Removing fences twice is the same as removing them once. */
  lemma StripFencesIdempotent(s: string)
    ensures StripFences(StripFences(s)) == StripFences(s)
  {
    StripFencesLeavesNoFence(s);
    StripFencesOfFenceFree(StripFences(s));
  }

  /** Fence-free text followed by a part that does not begin with a backtick does not begin with a fence. */
  lemma NoFenceAtFront(x: string, y: string)
    requires x != [] && FenceFree(x) && (y == [] || y[0] != '`')
    ensures !FenceAt(x + y, 0)
  {
    var xy := x + y;
    if |x| >= 3 {
      assert !FenceAt(x, 0);
    } else if |xy| >= 3 {
      assert xy[|x|] == y[0];
    }
  }

  /** Fence-free text in front of a part that does not begin with a backtick passes through. */
  lemma {:induction false} StripFencesAppend(x: string, y: string)
    requires FenceFree(x) && (y == [] || y[0] != '`')
    ensures StripFences(x + y) == x + StripFences(y)
    decreases |x|
  {
    if x == [] {
      assert x + y == y;
    } else {
      var xy := x + y;
      NoFenceAtFront(x, y);
      FenceFreeSuffix(x, 1);
      calc {
        StripFences(xy);
        == { StripFencesHead(xy); }
        [xy[0]] + StripFences(xy[1..]);
        == { assert xy[0] == x[0] && xy[1..] == x[1..] + y; }
        [x[0]] + StripFences(x[1..] + y);
        == { StripFencesAppend(x[1..], y); }
        [x[0]] + (x[1..] + StripFences(y));
        == { AppendAssoc([x[0]], x[1..], StripFences(y)); assert [x[0]] + x[1..] == x; }
        x + StripFences(y);
      }
    }
  }

  lemma {:induction false} TrimLeftAppend(x: string, y: string)
    ensures !Blank(x) ==> TrimLeft(x + y) == TrimLeft(x) + y
    ensures Blank(x) ==> TrimLeft(x + y) == TrimLeft(y)
    decreases |x|
  {
    if x != [] {
      assert (x + y)[1..] == x[1..] + y;
      if !IsSpace(x[0]) { assert !Blank(x); }
      else {
        assert Blank(x) ==> Blank(x[1..]);
        assert !Blank(x) ==> !Blank(x[1..]);
        TrimLeftAppend(x[1..], y);
      }
    } else {
      assert x + y == y;
    }
  }

  /** The opening "```json" and the blanks after it go first. */
  lemma OpeningFenceRemoved(body: string)
    ensures StripFences("```json\n" + body + "\n```") == StripFences(TrimLeft(body + "\n```"))
  {
    var tail := body + "\n```";
    var fenced := "```json\n" + body + "\n```";
    assert FenceAt(fenced, 0);
    assert fenced[3..] == "json\n" + tail;
    assert OpensJsonTag(fenced[3..]);
    assert fenced[3..][4..] == "\n" + tail;
    assert ("\n" + tail)[1..] == tail;
  }

  /** A lone closing fence vanishes. */
  lemma ClosingFenceRemoved()
    ensures StripFences(TrimLeft("\n```")) == []
  {
    var t := "\n```";
    assert t[1..] == "```";
    assert TrimLeft("```") == "```" by { assert !IsSpace('`'); }
    assert FenceAt("```", 0) && "```"[3..] == [];
    assert TrimLeft([]) == [];
  }

  /** What the substitution leaves of a fenced body: its text without leading blanks, and a newline. */
  lemma StripFencesOfFenced(body: string)
    requires FenceFree(body)
    ensures Blank(body) ==> StripFences("```json\n" + body + "\n```") == []
    ensures !Blank(body) ==> StripFences("```json\n" + body + "\n```") == TrimLeft(body) + "\n"
  {
    OpeningFenceRemoved(body);
    TrimLeftAppend(body, "\n```");
    if Blank(body) {
      ClosingFenceRemoved();
    } else {
      var l := TrimLeft(body);
      TrimLeftIsSuffix(body);
      FenceFreeSuffix(body, |body| - |l|);
      StripFencesAppend(l, "\n```");
      StripFencesNewlineFence();
    }
  }

  /**
   * A fenced object "```json\n" + body + "\n```" cleans to the same text as the bare
   * body, provided the body contains no fence of its own.
   */
  lemma FencedCleansLikeBare(body: string)
    requires FenceFree(body)
    ensures Clean("```json\n" + body + "\n```") == Clean(body)
  {
    var fenced := "```json\n" + body + "\n```";
    assert Strip(StripFences(fenced)) == Strip(body) by {
      StripFencesOfFenced(body);
      if Blank(body) {
        StripEmptyIffBlank(body);
        StripEmptyIffBlank([]);
      } else {
        StripNewlineAfterText(TrimLeft(body));
      }
    }
    StripFencesOfFenceFree(body);
  }

  /** A trailing newline after text that starts with a non-blank is stripped away. */
  lemma StripNewlineAfterText(l: string)
    requires l != [] && !IsSpace(l[0])
    ensures Strip(l + "\n") == TrimRight(l)
  {
    var ln := l + "\n";
    assert TrimLeft(ln) == ln;
    assert ln[..|ln| - 1] == l;
  }

  lemma StripFencesNewlineFence()
    ensures StripFences("\n```") == "\n"
  {
    var fence := "```";
    assert FenceAt(fence, 0) && fence[3..] == [];
    assert TrimLeft([]) == [];
    assert StripFences(fence) == [];
    var s := "\n```";
    assert !FenceAt(s, 0) && s[1..] == fence;
    StripFencesHead(s);
  }

  /**
   * Extraction is insensitive to markdown fence wrapping: the fenced form of a
   * fence-free body gives the same result as the body itself.
   */
  lemma FencedExtractsLikeBare(body: string, loads: string -> Option<Json.Value>)
    requires FenceFree(body)
    ensures ExtractJson("```json\n" + body + "\n```", loads) == ExtractJson(body, loads)
  {
    FencedCleansLikeBare(body);
  }
}
