/** `extract_json_or_raise`: recovering one JSON value from a free-text
    reply by three strategies tried in order. `json.loads` is the oracle
    `parse`, which yields `None` where Python raises JSONDecodeError. */
module Extraction {

  import opened Wrappers
  import opened Json
  import opened Text

  type Parser = string -> Option<Json>

  /** `s[i..]` starts with `lit`. */
  predicate HasAt(s: string, i: nat, lit: string) {
    i + |lit| <= |s| && s[i..i + |lit|] == lit
  }

  /** The length of the run of `\s` characters that starts at `p`; the
      regex's greedy `\s*` consumes exactly this run. */
  function SpaceRun(s: string, p: nat): (n: nat)
    requires p <= |s|
    ensures p + n <= |s|
    ensures forall i :: p <= i < p + n ==> IsSpace(s[i])
    ensures p + n == |s| || !IsSpace(s[p + n])
    decreases |s| - p
  {
    if p < |s| && IsSpace(s[p]) then 1 + SpaceRun(s, p + 1) else 0
  }

  // The fenced-block pattern is  ```(?:json)?\s*(\{.*?\})\s*```  with
  // DOTALL. It backtracks to no effect: a tag `json` that follows the
  // opening fence is always taken (without it the next character is `j`,
  // which neither `\s` nor `{` accepts), and each `\s*` must stop at the
  // end of its run of spaces (the next character must be `{` or a
  // backtick). What is left is a choice of opening fence (the leftmost
  // that leads to a match, as `re.search` does) and of closing brace (the
  // nearest one, as the lazy `.*?` does).

  /** Where the `\s*` after a fence at `i` starts: past the `json` tag when
      the fence carries one. */
  function TagEnd(s: string, i: nat): nat {
    if HasAt(s, i + 3, "json") then i + 7 else i + 3
  }

  /** The index of the `{` that opens a group after a fence starting at `i`,
      if the text there reads ``` [json] spaces `{`. */
  function OpenBrace(s: string, i: nat): (r: Option<nat>)
    requires i <= |s|
    ensures r.Some? ==> i < r.value < |s| && s[r.value] == '{'
  {
    if !HasAt(s, i, "```") then None
    else
      var p := TagEnd(s, i);
      var j := p + SpaceRun(s, p);
      if j < |s| && s[j] == '{' then Some(j) else None
  }

  /** The opening half of the pattern: there is a brace exactly when a fence
      starts at `i` and the first non-space after its optional `json` tag is
      a `{`, and then the brace is that character. */
  lemma OpenBraceMeaning(s: string, i: nat)
    requires i <= |s|
    ensures OpenBrace(s, i).Some? ==>
      && HasAt(s, i, "```") && TagEnd(s, i) <= OpenBrace(s, i).value
      && forall q :: TagEnd(s, i) <= q < OpenBrace(s, i).value ==> IsSpace(s[q])
    ensures OpenBrace(s, i).None? && HasAt(s, i, "```") ==>
      forall j :: TagEnd(s, i) <= j < |s| && s[j] == '{' ==> exists q :: TagEnd(s, i) <= q < j && !IsSpace(s[q])
  {
    if HasAt(s, i, "```") {
      var p := TagEnd(s, i);
      forall j | p <= j < |s| && s[j] == '{' && OpenBrace(s, i).None?
        ensures exists q :: p <= q < j && !IsSpace(s[q])
      {
        BraceEndsSpaces(s, p, j);
      }
    }
  }

  /** A `{` other than the one that ends the run of spaces from `p` lies
      past that end, so a non-space precedes it. */
  lemma BraceEndsSpaces(s: string, p: nat, j: nat)
    requires p <= j < |s| && s[j] == '{'
    requires p + SpaceRun(s, p) != j
    ensures exists q :: p <= q < j && !IsSpace(s[q])
  {
    var e := p + SpaceRun(s, p);
    assert !IsSpace('{');
    assert e < j;
    assert !IsSpace(s[e]);
  }

  /** A `}` at `k` followed by spaces and a closing fence. */
  predicate ClosesAt(s: string, k: nat) {
    k < |s| && s[k] == '}' && HasAt(s, k + 1 + SpaceRun(s, k + 1), "```")
  }

  /** The pattern matches at `i` with its group spanning `s[j..k + 1]`. */
  predicate FenceMatch(s: string, i: nat, j: nat, k: nat) {
    i <= |s| && OpenBrace(s, i) == Some(j) && j < k && ClosesAt(s, k)
  }

  /** The nearest closing brace at or after `from`. */
  function NearestClose(s: string, from: nat): (r: Option<nat>)
    requires from <= |s|
    ensures r.Some? ==> from <= r.value && ClosesAt(s, r.value)
    ensures forall k :: from <= k && (r.None? || k < r.value) ==> !ClosesAt(s, k)
    decreases |s| - from
  {
    if from == |s| then None
    else if ClosesAt(s, from) then Some(from)
    else NearestClose(s, from + 1)
  }

  /** `re.search` from `from` on: the leftmost match, and at it the nearest
      closing brace, as positions (fence, open brace, close brace). */
  function FenceSearch(s: string, from: nat): (r: Option<(nat, nat, nat)>)
    requires from <= |s|
    ensures r.Some? ==> from <= r.value.0 && FenceMatch(s, r.value.0, r.value.1, r.value.2)
    ensures r.Some? ==> forall i, j, k :: from <= i && FenceMatch(s, i, j, k) ==>
      r.value.0 <= i && (i == r.value.0 ==> r.value.2 <= k)
    ensures r.None? ==> forall i, j, k :: from <= i ==> !FenceMatch(s, i, j, k)
    decreases |s| - from
  {
    var brace := OpenBrace(s, from);
    if brace.Some? && NearestClose(s, brace.value + 1).Some? then
      Some((from, brace.value, NearestClose(s, brace.value + 1).value))
    else if from == |s| then None
    else FenceSearch(s, from + 1)
  }

  /** `match.group(1)` of the fenced-block search, if it matched. */
  function FencedCandidate(s: string): (r: Option<string>)
    ensures r.Some? ==> |r.value| >= 2 && r.value[0] == '{' && r.value[|r.value| - 1] == '}'
  {
    match FenceSearch(s, 0)
    case Some((_, j, k)) => Some(s[j..k + 1])
    case None => None
  }

  /** Some `{` comes before some later `}`. */
  ghost predicate HasBracePair(s: string) {
    exists i, k :: 0 <= i < k < |s| && s[i] == '{' && s[k] == '}'
  }

  /** `text[start:end + 1]` for `start = text.find("{")` and
      `end = text.rfind("}")`, when `start != -1 and end != -1 and end > start`. */
  function BraceCandidate(s: string): (r: Option<string>)
    ensures r.Some? <==> HasBracePair(s)
    ensures r.Some? ==> exists a, b ::
      && 0 <= a < b < |s| && r.value == s[a..b + 1]
      && s[a] == '{' && '{' !in s[..a] && s[b] == '}' && '}' !in s[b + 1..]
  {
    var start := Find(s, '{');
    var end := RFind(s, '}');
    assert HasBracePair(s) ==> start != -1 && end != -1 && end > start by {
      if HasBracePair(s) {
        var i, k :| 0 <= i < k < |s| && s[i] == '{' && s[k] == '}';
        assert s[i] in s && s[k] in s;
      }
    }
    if start != -1 && end != -1 && end > start then Some(s[start..end + 1]) else None
  }

  const MessageHead: string := "Failed to parse JSON from response. Response was:\n"

  /** The ValueError text: a fixed head, at most 500 characters of the
      reply, then an ellipsis. */
  function FailureMessage(s: string): (m: string)
    ensures |m| == |MessageHead| + Min(500, |s|) + 3
    ensures m[..|MessageHead|] == MessageHead
    ensures m[|MessageHead|..|MessageHead| + Min(500, |s|)] == s[..Min(500, |s|)]
    ensures m[|m| - 3..] == "..."
  {
    MessageHead + s[..Min(500, |s|)] + "..."
  }

  /** `extract_json_or_raise(text)`. */
  function Extract(parse: Parser, s: string): (r: Result<Json, Failure>)
    ensures parse(s).Some? ==> r == Ok(parse(s).value)
    ensures r.Err? ==> r == Err(MalformedOutput(FailureMessage(s)))
  {
    match parse(s)
    case Some(v) => Ok(v)
    case None =>
      var fenced := if FencedCandidate(s).Some? then parse(FencedCandidate(s).value) else None;
      if fenced.Some? then Ok(fenced.value)
      else
        var braced := if BraceCandidate(s).Some? then parse(BraceCandidate(s).value) else None;
        if braced.Some? then Ok(braced.value)
        else Err(MalformedOutput(FailureMessage(s)))
  }

  // ----- The cascade as an ordered list of candidates -----

  /** What `json.loads` may be given, in the order the code tries them: the
      whole reply, the fenced group if the pattern matched, the brace slice
      if the reply has a `{` before a `}`. */
  function Candidates(s: string): (cs: seq<string>)
    ensures 1 <= |cs| <= 3 && cs[0] == s
  {
    [s]
    + (if FencedCandidate(s).Some? then [FencedCandidate(s).value] else [])
    + (if BraceCandidate(s).Some? then [BraceCandidate(s).value] else [])
  }

  /** The index of the first candidate that parses. */
  function FirstParsed(parse: Parser, cs: seq<string>): (r: Option<nat>)
    ensures r.Some? ==> r.value < |cs| && parse(cs[r.value]).Some?
    ensures forall i :: 0 <= i < |cs| && (r.None? || i < r.value) ==> parse(cs[i]).None?
  {
    if cs == [] then None
    else if parse(cs[0]).Some? then Some(0)
    else
      match FirstParsed(parse, cs[1..])
      case None => None
      case Some(i) => Some(i + 1)
  }

  /** The strategies are tried strictly in order and the first that parses
      decides: the result is the parse of the first parseable candidate,
      every earlier candidate failed, and the error is raised only when all
      of them fail. */
  lemma ExtractIsFirstParsedCandidate(parse: Parser, s: string)
    ensures match FirstParsed(parse, Candidates(s))
      case Some(i) => Extract(parse, s) == Ok(parse(Candidates(s)[i]).value)
      case None => Extract(parse, s) == Err(MalformedOutput(FailureMessage(s)))
  {
    var cs := Candidates(s);
    var f := FencedCandidate(s);
    var b := BraceCandidate(s);
    if parse(s).None? {
      if f.Some? {
        assert cs[1] == f.value;
        if parse(f.value).None? && b.Some? { assert cs[2] == b.value; }
      } else if b.Some? {
        assert cs[1] == b.value;
      }
    }
  }

  /** A fenced match is itself a `{` before a later `}`. */
  lemma FencedHasBracePair(s: string)
    requires FencedCandidate(s).Some?
    ensures HasBracePair(s)
  {
    var t := FenceSearch(s, 0).value;
    assert s[t.1] == '{' && s[t.2] == '}';
  }

  /** A reply that is not JSON as a whole and has no `{` before a later `}`
      always raises MalformedOutput, whose message embeds the first
      min(500, |s|) characters of the reply. */
  lemma NoBracePairRaises(parse: Parser, s: string)
    requires parse(s).None? && !HasBracePair(s)
    ensures Extract(parse, s) == Err(MalformedOutput(FailureMessage(s)))
    ensures |Message(Extract(parse, s).error)| <= |MessageHead| + 503
  {
    if FencedCandidate(s).Some? { FencedHasBracePair(s); }
  }

  /** A parser that never turns text beginning with `{` into anything but an
      object, as `json.loads` does. */
  ghost predicate ObjectsFromBraces(parse: Parser) {
    forall c :: |c| > 0 && c[0] == '{' && parse(c).Some? ==> parse(c).value.JObj?
  }

  /** Only the direct parse of the whole reply can yield a non-object: the
      fenced and brace candidates both begin with `{`. */
  lemma FallbacksYieldObjects(parse: Parser, s: string)
    requires ObjectsFromBraces(parse)
    requires parse(s).None? && Extract(parse, s).Ok?
    ensures Extract(parse, s).value.JObj?
  {
    var b := BraceCandidate(s);
    if b.Some? {
      var a, e :| 0 <= a < e < |s| && b.value == s[a..e + 1] && s[a] == '{';
      assert b.value[0] == '{';
    }
  }

  /** A reply that wraps `body` in a ```json fence between prose and a trailer. */
  function Fenced(prose: string, body: string, trailer: string): string {
    prose + "```json\n" + body + "\n```" + trailer
  }

  /** A reply made of prose without backticks, a ```json fence, an object
      text `body` without a fence inside it, a closing fence and any trailer yields
      the object `body` parses to, when the reply as a whole is not JSON. */
  lemma FencedObjectRecovered(parse: Parser, prose: string, body: string, trailer: string, obj: Json)
    requires '`' !in prose && forall q: nat :: !HasAt(body, q, "```")
    requires |body| >= 2 && body[0] == '{' && body[|body| - 1] == '}'
    requires parse(body) == Some(obj)
    requires parse(Fenced(prose, body, trailer)).None?
    ensures Extract(parse, Fenced(prose, body, trailer)) == Ok(obj)
  {
    FencedCandidateIsBody(prose, body, trailer);
  }

  /** The fenced group of such a reply is exactly `body`. */
  lemma FencedCandidateIsBody(prose: string, body: string, trailer: string)
    requires '`' !in prose && forall q: nat :: !HasAt(body, q, "```")
    requires |body| >= 2 && body[0] == '{' && body[|body| - 1] == '}'
    ensures FencedCandidate(Fenced(prose, body, trailer)) == Some(body)
  {
    var open := prose + "```json\n";
    var rest := "\n```" + trailer;
    FencedGroupIsBody(prose, body, trailer);
    assert Fenced(prose, body, trailer) == open + body + rest;
    assert |open| == |prose| + 8;
    GroupIsMiddle(Fenced(prose, body, trailer), open, body, rest, |prose|, |prose| + 8, |prose| + 8 + |body| - 1);
  }

  /** When the search reports a group spanning the middle part of a
      concatenation, the group is that part. */
  lemma GroupIsMiddle(s: string, open: string, body: string, rest: string, i: nat, j: nat, k: nat)
    requires s == open + body + rest && |body| >= 1
    requires FenceSearch(s, 0) == Some((i, j, k))
    requires j == |open| && k == |open| + |body| - 1
    ensures FencedCandidate(s) == Some(body)
  {
    assert forall q :: 0 <= q < |body| ==> s[|open| + q] == body[q];
    assert s[|open|..|open| + |body|] == body;
  }

  /** The fenced-block search on such a reply matches at the fence that
      follows the prose, with the group spanning exactly `body`. */
  lemma FencedGroupIsBody(prose: string, body: string, trailer: string)
    requires '`' !in prose && forall q: nat :: !HasAt(body, q, "```")
    requires |body| >= 2 && body[0] == '{' && body[|body| - 1] == '}'
    ensures FenceSearch(Fenced(prose, body, trailer), 0)
         == Some((|prose|, |prose| + 8, |prose| + 8 + |body| - 1))
  {
    var s := Fenced(prose, body, trailer);
    var i := |prose|;
    var j := i + 8;
    var k := j + |body| - 1;
    FenceOpensBeforeBody(prose, body, trailer);
    FenceClosesAfterBody(prose, body, trailer);
    forall i': nat | i' < i ensures !HasAt(s, i', "```") {
      NoFenceInProse(prose, body, trailer, i');
    }
    forall k': nat | j < k' < k ensures !ClosesAt(s, k') {
      NoCloseInBody(prose, body, trailer, k');
    }
    LeftmostNearestMatch(s, i, j, k);
  }

  /** A match with no fence before it and no closing brace inside its group
      is the one the search reports. */
  lemma LeftmostNearestMatch(s: string, i: nat, j: nat, k: nat)
    requires FenceMatch(s, i, j, k)
    requires forall i': nat :: i' < i ==> !HasAt(s, i', "```")
    requires forall k': nat :: j < k' < k ==> !ClosesAt(s, k')
    ensures FenceSearch(s, 0) == Some((i, j, k))
  {
    var t := FenceSearch(s, 0);
    assert t.Some?;
    var (i', j', k') := t.value;
    assert i' == i;
    assert k' == k;
  }

  lemma FenceOpensBeforeBody(prose: string, body: string, trailer: string)
    requires |body| >= 1 && body[0] == '{'
    ensures OpenBrace(Fenced(prose, body, trailer), |prose|) == Some(|prose| + 8)
  {
    var s := Fenced(prose, body, trailer);
    var i := |prose|;
    assert s[i..i + 8] == "```json\n";
    assert s[i..i + 3] == "```" && s[i + 3..i + 7] == "json";
    assert s[i + 7] == '\n' && s[i + 8] == '{';
    assert SpaceRun(s, i + 8) == 0;
    assert SpaceRun(s, i + 7) == 1;
  }

  lemma FenceClosesAfterBody(prose: string, body: string, trailer: string)
    requires |body| >= 1 && body[|body| - 1] == '}'
    ensures ClosesAt(Fenced(prose, body, trailer), |prose| + 8 + |body| - 1)
  {
    var s := Fenced(prose, body, trailer);
    var k := |prose| + 8 + |body| - 1;
    assert s[k..k + 5] == "}\n```";
    assert s[k + 2] == '`';
    assert SpaceRun(s, k + 2) == 0;
    assert SpaceRun(s, k + 1) == 1;
  }

  lemma NoFenceInProse(prose: string, body: string, trailer: string, i: nat)
    requires '`' !in prose
    requires i < |prose|
    ensures !HasAt(Fenced(prose, body, trailer), i, "```")
  {
    var s := Fenced(prose, body, trailer);
    assert s[i] == prose[i];
  }

  lemma NoCloseInBody(prose: string, body: string, trailer: string, k: nat)
    requires forall q: nat :: !HasAt(body, q, "```")
    requires |body| >= 1 && body[|body| - 1] == '}'
    requires |prose| + 8 < k < |prose| + 8 + |body| - 1
    ensures !ClosesAt(Fenced(prose, body, trailer), k)
  {
    var s := Fenced(prose, body, trailer);
    var j := |prose| + 8;
    var last := j + |body| - 1;
    assert s[j..last + 1] == body;
    var q := k + 1 + SpaceRun(s, k + 1);
    assert s[last] == '}';
    assert q <= last;
    NoFenceInsidePart(s, body, j, q);
  }

  /** A string whose last character is a `}` and that holds no fence puts
      none at any of its positions when it sits inside a larger string, even
      one reaching past its end. */
  lemma NoFenceInsidePart(s: string, part: string, j: nat, q: nat)
    requires j + |part| <= |s| && s[j..j + |part|] == part
    requires |part| >= 1 && part[|part| - 1] == '}'
    requires forall p: nat :: !HasAt(part, p, "```")
    requires j <= q < j + |part|
    ensures !HasAt(s, q, "```")
  {
    var last := j + |part| - 1;
    var b: nat := q - j;
    if q + 3 <= last + 1 {
      assert forall x :: 0 <= x < |part| ==> s[j + x] == part[x];
      assert s[q..q + 3] == part[b..b + 3];
      assert !HasAt(part, b, "```");
    } else if q + 3 <= |s| {
      assert s[last] == part[|part| - 1];
      assert s[q..q + 3][last - q] == '}';
      assert "```"[last - q] == '`';
    }
  }
}
