/** Post-processing of the language model's reply in
    `AIService.classify_incident`: strip the reply, remove Markdown code
    fences with `re.sub(r"^```(?:json)?|```$", "", text, flags=re.MULTILINE)`,
    strip again, parse as JSON, and fall back to a fixed record when parsing
    fails.  The model call itself and `json.loads` are outside the model: the
    call's outcome and the parser are parameters. */
module AiService {
  import opened Values
  import opened Text

  const Fence: string := "```"
  const JsonFence: string := "```json"

  /** Three backticks start at position p. */
  predicate FenceAt(s: string, p: int) {
    0 <= p && p + 3 <= |s| && s[p] == '`' && s[p + 1] == '`' && s[p + 2] == '`'
  }

  /** "```json" starts at position p. */
  predicate JsonFenceAt(s: string, p: int) {
    FenceAt(s, p) && p + 7 <= |s| && s[p + 3] == 'j' && s[p + 4] == 's' && s[p + 5] == 'o' && s[p + 6] == 'n'
  }

  predicate StartsWithFence(line: string) {
    FenceAt(line, 0)
  }

  predicate EndsWithFence(line: string) {
    FenceAt(line, |line| - 3)
  }

  /** The fence predicates say that the text holds the fence strings there. */
  lemma FenceAtIs(s: string, p: int)
    ensures FenceAt(s, p) <==> 0 <= p && p + 3 <= |s| && s[p..p + 3] == Fence
    ensures JsonFenceAt(s, p) <==> 0 <= p && p + 7 <= |s| && s[p..p + 7] == JsonFence
  {
    if 0 <= p && p + 3 <= |s| {
      assert s[p..p + 3] == [s[p], s[p + 1], s[p + 2]];
    }
    if 0 <= p && p + 7 <= |s| {
      assert s[p..p + 7] == [s[p], s[p + 1], s[p + 2], s[p + 3], s[p + 4], s[p + 5], s[p + 6]];
    }
  }

  /** Length of the match of the fence pattern at position p of s, or 0 when
      it does not match there.  With MULTILINE, `^` holds at the start of s
      and after every newline, `$` at the end of s and before every newline.
      The first alternative is tried first, and `(?:json)?` is greedy. */
  function MatchLength(s: string, p: nat): (n: nat)
    requires p <= |s|
    ensures n == 0 || n == 3 || n == 7
    ensures p + n <= |s|
  {
    if (p == 0 || s[p - 1] == '\n') && FenceAt(s, p) then
      if JsonFenceAt(s, p) then 7 else 3
    else if FenceAt(s, p) && (p + 3 == |s| || s[p + 3] == '\n') then 3
    else 0
  }

  /** What `re.sub` produces from position p onward: at each position the
      pattern is tried; a match is dropped and scanning resumes after it,
      otherwise the character is kept and scanning moves one position on. */
  function Substitute(s: string, p: nat): string
    requires p <= |s|
    decreases |s| - p
  {
    if p == |s| then ""
    else
      var n := MatchLength(s, p);
      if n > 0 then Substitute(s, p + n) else [s[p]] + Substitute(s, p + 1)
  }

  /** `re.sub(r"^```(?:json)?|```$", "", s, flags=re.MULTILINE)`. */
  function RemoveFences(s: string): (r: string)
    ensures |r| <= |s|
  {
    SubstituteShrinks(s, 0);
    Substitute(s, 0)
  }

  /** The scan only drops characters: it never lengthens the text. */
  lemma {:induction false} SubstituteShrinks(s: string, p: nat)
    requires p <= |s|
    ensures |Substitute(s, p)| <= |s| - p
    decreases |s| - p
  {
    if p < |s| {
      var n := MatchLength(s, p);
      if n > 0 {
        SubstituteShrinks(s, p + n);
      } else {
        SubstituteShrinks(s, p + 1);
      }
    }
  }

  /** The fence a line starts with, the longer one first. */
  function LeadingFence(line: string): string {
    if JsonFenceAt(line, 0) then JsonFence
    else if FenceAt(line, 0) then Fence
    else ""
  }

  /** The effect of the substitution on one line: a leading "```json" or
      "```" is removed, then a trailing "```" if one remains after it. */
  function RemoveLineFences(line: string): string {
    var lead := |LeadingFence(line)|;
    if |line| - lead >= 3 && EndsWithFence(line) then line[lead..|line| - 3] else line[lead..]
  }

  /** A line starts with its leading fence. */
  lemma LeadingFencePrefix(line: string)
    ensures |LeadingFence(line)| <= |line| && line[..|LeadingFence(line)|] == LeadingFence(line)
  {
    FenceAtIs(line, 0);
    if JsonFenceAt(line, 0) {
      assert line[..7] == line[0..7];
    } else if FenceAt(line, 0) {
      assert line[..3] == line[0..3];
    }
  }

  /** A line is its leading fence, what `RemoveLineFences` keeps, and its
      trailing fence, in that order: nothing else is removed. */
  lemma RemoveLineFencesParts(line: string)
    ensures var lead := LeadingFence(line);
      line == lead + RemoveLineFences(line) + (if |line| - |lead| >= 3 && EndsWithFence(line) then Fence else "")
  {
    var lead := |LeadingFence(line)|;
    LeadingFencePrefix(line);
    if |line| - lead >= 3 && EndsWithFence(line) {
      FenceAtIs(line, |line| - 3);
      assert line[|line| - 3..] == line[|line| - 3..|line|];
      assert line == line[..lead] + line[lead..|line| - 3] + line[|line| - 3..];
    } else {
      assert line == line[..lead] + line[lead..];
    }
  }

  /** A line that neither starts nor ends with a fence is left as it is. */
  lemma RemoveLineFencesUnchanged(line: string)
    requires !StartsWithFence(line) && !EndsWithFence(line)
    ensures RemoveLineFences(line) == line
  {
    assert line[0..] == line;
  }

  // ---- the substitution, line by line ----

  /** Behind a newline, the pattern matches exactly where it matches the
      text after the newline on its own. */
  lemma MatchLengthShift(a: string, b: string, q: nat)
    requires |a| + 1 <= q < |a| + 1 + |b|
    ensures MatchLength(a + "\n" + b, q) == MatchLength(b, q - |a| - 1)
  {
    var s := a + "\n" + b;
    var d := |a| + 1;
    assert forall k :: d <= k < |s| ==> s[k] == b[k - d];
    assert s[d - 1] == '\n';
  }

  /** Behind a newline, the scan of the text after it is the scan of that text on its own. */
  lemma {:induction false} SubstituteShift(a: string, b: string, q: nat)
    requires |a| + 1 <= q <= |a| + 1 + |b|
    ensures Substitute(a + "\n" + b, q) == Substitute(b, q - |a| - 1)
    decreases |a| + 1 + |b| - q
  {
    var s := a + "\n" + b;
    var q' := q - |a| - 1;
    if q < |s| {
      MatchLengthShift(a, b, q);
      var n := MatchLength(s, q);
      if n > 0 {
        SubstituteShift(a, b, q + n);
        assert Substitute(s, q) == Substitute(s, q + n);
        assert Substitute(b, q') == Substitute(b, q' + n);
      } else {
        SubstituteShift(a, b, q + 1);
        assert s[q] == b[q'];
        assert Substitute(s, q) == [s[q]] + Substitute(s, q + 1);
        assert Substitute(b, q') == [b[q']] + Substitute(b, q' + 1);
      }
    }
  }

  /** Inside the first line, the pattern matches the whole text exactly
      where it matches that line alone. */
  lemma MatchLengthFirstLine(a: string, b: string, p: nat)
    requires '\n' !in a && p < |a|
    ensures MatchLength(a + "\n" + b, p) == MatchLength(a, p)
  {
    var s := a + "\n" + b;
    assert forall k :: 0 <= k < |a| ==> s[k] == a[k];
    assert s[|a|] == '\n';
    assert forall k :: 0 <= k < |a| ==> a[k] != '\n';
  }

  /** At the newline that ends the first line, the scan keeps the newline
      and goes on with the rest on its own. */
  lemma SubstituteAtNewline(a: string, b: string)
    ensures Substitute(a + "\n" + b, |a|) == Substitute(a, |a|) + "\n" + Substitute(b, 0)
  {
    var s := a + "\n" + b;
    assert s[|a|] == '\n';
    assert MatchLength(s, |a|) == 0;
    SubstituteShift(a, b, |a| + 1);
    assert Substitute(s, |a|) == "\n" + Substitute(s, |a| + 1);
    assert Substitute(a, |a|) == "";
  }

  /** Inside the first line, the scan of the whole text is the scan of that
      line, the newline, and the scan of the rest. */
  lemma {:induction false} SubstituteFirstLine(a: string, b: string, p: nat)
    requires '\n' !in a && p <= |a|
    ensures Substitute(a + "\n" + b, p) == Substitute(a, p) + "\n" + Substitute(b, 0)
    decreases |a| - p
  {
    var s := a + "\n" + b;
    if p == |a| {
      SubstituteAtNewline(a, b);
    } else {
      MatchLengthFirstLine(a, b, p);
      var n := MatchLength(a, p);
      if n > 0 {
        SubstituteFirstLine(a, b, p + n);
        assert Substitute(s, p) == Substitute(s, p + n);
        assert Substitute(a, p) == Substitute(a, p + n);
      } else {
        SubstituteFirstLine(a, b, p + 1);
        assert s[p] == a[p];
        assert Substitute(s, p) == [s[p]] + Substitute(s, p + 1);
        assert Substitute(a, p) == [a[p]] + Substitute(a, p + 1);
        assert [a[p]] + (Substitute(a, p + 1) + "\n" + Substitute(b, 0))
            == ([a[p]] + Substitute(a, p + 1)) + "\n" + Substitute(b, 0);
      }
    }
  }

  /** Past the start of a line, only a trailing fence can match. */
  lemma {:induction false} SubstituteLineTail(a: string, q: nat)
    requires '\n' !in a && q <= |a|
    requires q > 0 || !StartsWithFence(a)
    ensures Substitute(a, q) == if |a| - q >= 3 && EndsWithFence(a) then a[q..|a| - 3] else a[q..]
    decreases |a| - q
  {
    if q < |a| {
      assert q > 0 ==> a[q - 1] != '\n';
      assert q + 3 < |a| ==> a[q + 3] != '\n';
      if !(FenceAt(a, q) && q + 3 == |a|) {
        assert MatchLength(a, q) == 0;
        SubstituteLineTail(a, q + 1);
        if |a| - q >= 3 && EndsWithFence(a) {
          assert a[q..|a| - 3] == [a[q]] + a[q + 1..|a| - 3];
        } else {
          assert a[q..] == [a[q]] + a[q + 1..];
        }
      }
    }
  }

  /** On a single line, the substitution is `RemoveLineFences`. */
  lemma SubstituteLine(a: string)
    requires '\n' !in a
    ensures RemoveFences(a) == RemoveLineFences(a)
  {
    var lead := |LeadingFence(a)|;
    if lead > 0 {
      assert MatchLength(a, 0) == lead;
    }
    SubstituteLineTail(a, lead);
  }

  /** The lines of a text with their fences removed one by one. */
  function RemoveFencesPerLine(lines: seq<string>): (r: seq<string>)
    ensures |r| == |lines|
    ensures forall k :: 0 <= k < |lines| ==> r[k] == RemoveLineFences(lines[k])
  {
    seq(|lines|, k requires 0 <= k < |lines| => RemoveLineFences(lines[k]))
  }

  lemma PerLineCons(a: string, lines: seq<string>)
    ensures RemoveFencesPerLine([a] + lines) == [RemoveLineFences(a)] + RemoveFencesPerLine(lines)
  {
    var x, y := RemoveFencesPerLine([a] + lines), [RemoveLineFences(a)] + RemoveFencesPerLine(lines);
    assert |x| == |y|;
    forall k | 0 <= k < |x| ensures x[k] == y[k] {
      if k > 0 { assert ([a] + lines)[k] == lines[k - 1]; }
    }
  }

  /** The multiline substitution acts on each line separately: it is the
      same as splitting at newlines, removing the fences of every line and
      joining the lines again. */
  lemma {:induction false} RemoveFencesLineByLine(s: string)
    ensures RemoveFences(s) == Join(RemoveFencesPerLine(Split(s)))
    decreases |s|
  {
    var i := NewlineFrom(s, 0);
    if i == |s| {
      assert '\n' !in s;
      SplitSingleLine(s);
      SubstituteLine(s);
    } else {
      var a, b := s[..i], s[i + 1..];
      assert forall k :: 0 <= k < i ==> a[k] == s[k];
      assert '\n' !in a;
      assert s == a + "\n" + b;
      SubstituteFirstLine(a, b, 0);
      SubstituteLine(a);
      RemoveFencesLineByLine(b);
      SplitFirst(a, b);
      PerLineCons(a, Split(b));
    }
  }

  // ---- the cleaned reply ----

  /** `re.sub(...)` applied to `reply.strip()`, then `.strip()` again. */
  function CleanReply(reply: string): (cleaned: string)
    ensures Trimmed(cleaned)
  {
    Strip(RemoveFences(Strip(reply)))
  }

  /** Without three backticks in a row, the scan keeps every character. */
  lemma {:induction false} SubstituteNoFence(s: string, p: nat)
    requires p <= |s|
    requires forall k :: 0 <= k <= |s| - 3 ==> !FenceAt(s, k)
    ensures Substitute(s, p) == s[p..]
    decreases |s| - p
  {
    if p < |s| {
      assert MatchLength(s, p) == 0;
      assert s[p..] == [s[p]] + s[p + 1..];
      SubstituteNoFence(s, p + 1);
    }
  }

  /** A reply without "```" cleans to the stripped reply. */
  lemma CleanReplyWithoutFence(reply: string)
    requires forall k :: 0 <= k <= |reply| - 3 ==> !FenceAt(reply, k)
    ensures CleanReply(reply) == Strip(reply)
  {
    StripBounds(reply);
    var t := Strip(reply);
    var i := StripStart(reply);
    forall k | 0 <= k <= |t| - 3 ensures !FenceAt(t, k) {
      assert t[k] == reply[i + k] && t[k + 1] == reply[i + k + 1] && t[k + 2] == reply[i + k + 2];
      assert !FenceAt(reply, i + k);
    }
    SubstituteNoFence(t, 0);
    assert t[0..] == t;
    StripIdempotent(reply);
  }

  lemma SplitFenced(body: string)
    ensures Split(JsonFence + "\n" + body + "\n" + Fence) == [JsonFence] + Split(body) + [Fence]
  {
    var tail := body + "\n" + Fence;
    assert JsonFence + "\n" + body + "\n" + Fence == JsonFence + "\n" + tail;
    SplitFirst(JsonFence, tail);
    SplitAround(body, Fence);
    SplitSingleLine(Fence);
  }

  lemma JoinCons(x: string, rest: seq<string>)
    requires |rest| >= 1
    ensures Join([x] + rest) == x + "\n" + Join(rest)
  {
    assert ([x] + rest)[1..] == rest;
  }

  lemma JoinPadded(inner: seq<string>)
    requires |inner| >= 1
    ensures Join([""] + inner + [""]) == "\n" + Join(inner) + "\n"
  {
    assert [""] + inner + [""] == [""] + (inner + [""]);
    JoinCons("", inner + [""]);
    JoinAppend(inner, [""]);
    var j := Join(inner);
    assert Join([""]) == "";
    assert "" + "\n" == "\n";
    assert j + "\n" + "" == j + "\n";
    assert "\n" + (j + "\n") == "\n" + j + "\n";
  }

  lemma FenceLinesVanish()
    ensures RemoveLineFences(JsonFence) == "" && RemoveLineFences(Fence) == ""
  {
    assert JsonFenceAt(JsonFence, 0);
    assert FenceAt(Fence, 0) && !JsonFenceAt(Fence, 0);
  }

  lemma PerLineFenced(inner: seq<string>)
    requires forall line :: line in inner ==> !StartsWithFence(line) && !EndsWithFence(line)
    ensures RemoveFencesPerLine([JsonFence] + inner + [Fence]) == [""] + inner + [""]
  {
    var lines := [JsonFence] + inner + [Fence];
    var x, y := RemoveFencesPerLine(lines), [""] + inner + [""];
    FenceLinesVanish();
    assert |x| == |y|;
    forall k | 0 <= k < |x| ensures x[k] == y[k] {
      if 0 < k <= |inner| {
        assert lines[k] == inner[k - 1] && y[k] == inner[k - 1];
        assert inner[k - 1] in inner;
        RemoveLineFencesUnchanged(inner[k - 1]);
      }
    }
  }

  lemma RemoveFencesOfFenced(body: string)
    requires forall line :: line in Split(body) ==> !StartsWithFence(line) && !EndsWithFence(line)
    ensures RemoveFences(JsonFence + "\n" + body + "\n" + Fence) == "\n" + body + "\n"
  {
    var reply := JsonFence + "\n" + body + "\n" + Fence;
    SplitFenced(body);
    RemoveFencesLineByLine(reply);
    PerLineFenced(Split(body));
    JoinPadded(Split(body));
    JoinSplit(body);
  }

  /** A reply wrapped in a "```json" fence cleans to its stripped body, when
      no line of the body starts or ends with "```" itself. */
  lemma CleanReplyFenced(body: string)
    requires forall line :: line in Split(body) ==> !StartsWithFence(line) && !EndsWithFence(line)
    ensures CleanReply(JsonFence + "\n" + body + "\n" + Fence) == Strip(body)
  {
    var reply := JsonFence + "\n" + body + "\n" + Fence;
    assert reply[0] == '`' && reply[|reply| - 1] == '`';
    StripTrimmed(reply);
    RemoveFencesOfFenced(body);
    StripPadded("\n", body, "\n");
  }


  // ---- classification ----

  /** The record returned when the cleaned reply does not parse:
      `{"category": "Other", "summary": description[:100]}`, plus
      `"priority"` when a fallback priority is given.  Slicing a description
      that is neither a string nor a list raises. */
  function Fallback(description: Value, priority: Option<string>): (r: Result<Value>)
    ensures r.Ok? <==> description.VStr? || description.VList?
    ensures r.Ok? ==>
      && r.value.VDict?
      && r.value.fields.Keys == {"category", "summary"} + (if priority.Some? then {"priority"} else {})
      && r.value.fields["category"] == VStr("Other")
      && Ok(r.value.fields["summary"]) == SliceTo(description, 100)
      && (priority.Some? ==> r.value.fields["priority"] == VStr(priority.value))
  {
    match SliceTo(description, 100)
    case Raise(e) => Raise(e)
    case Ok(summary) =>
      var record := map["category" := VStr("Other"), "summary" := summary];
      Ok(VDict(if priority.Some? then record["priority" := VStr(priority.value)] else record))
  }

  /** Classification of a description from the model's reply: an error of
      the model call propagates; a cleaned reply that parses is returned
      as parsed, unchecked; one that does not parse gives the fallback. */
  function ClassifyReply(description: Value, reply: Result<string>, parse: string -> Option<Value>,
                         priority: Option<string>): (r: Result<Value>)
    ensures reply.Raise? ==> r == Raise(reply.exc)
    ensures reply.Ok? && parse(CleanReply(reply.value)).Some? ==> r == Ok(parse(CleanReply(reply.value)).value)
    ensures reply.Ok? && parse(CleanReply(reply.value)).None? ==> r == Fallback(description, priority)
    ensures r.Raise? ==> reply.Raise? || (parse(CleanReply(reply.value)).None? && r == Raise(TypeError))
  {
    match reply
    case Raise(e) => Raise(e)
    case Ok(text) =>
      match parse(CleanReply(text))
      case Some(v) => Ok(v)
      case None => Fallback(description, priority)
  }

  /** `AIService.classify_incident`: one model call whose error propagates;
      the fallback it gives when parsing fails carries priority "Low". */
  function ClassifyIncident(description: Value, reply: Result<string>, parse: string -> Option<Value>): (r: Result<Value>)
    ensures reply.Raise? ==> r == Raise(reply.exc)
    ensures reply.Ok? && parse(CleanReply(reply.value)).None? && r.Ok? ==>
      r.value.VDict? && r.value.fields.Keys == {"category", "summary", "priority"}
      && r.value.fields["priority"] == VStr("Low")
  {
    ClassifyReply(description, reply, parse, Some("Low"))
  }

  /** When parsing fails on a string description, the result is exactly
      `{category: "Other", summary: description[:100], priority: "Low"}`,
      and the summary is a prefix of the description of at most 100
      characters, the whole description when it is that short. */
  lemma ClassifyIncidentFallback(description: string, reply: string, parse: string -> Option<Value>)
    requires parse(CleanReply(reply)).None?
    ensures var summary := Take(description, 100);
      && ClassifyIncident(VStr(description), Ok(reply), parse)
         == Ok(VDict(map["category" := VStr("Other"), "summary" := VStr(summary), "priority" := VStr("Low")]))
      && summary <= description && |summary| <= 100
      && (|description| <= 100 ==> summary == description)
  {
    var r := ClassifyIncident(VStr(description), Ok(reply), parse);
    var expected := map["category" := VStr("Other"), "summary" := VStr(Take(description, 100)), "priority" := VStr("Low")];
    assert r.value.fields == expected;
  }
}
