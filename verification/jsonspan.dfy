/** The tolerant extraction of the classifier's JSON verdict from free text
    (`extractJSON`). The regular expression `/\{[\s\S]*\}/` matches from the
    leftmost `{` that has some `}` after it to the LAST `}` of the text (the
    star is greedy); this is not the first balanced object. `JSON.parse` is
    outside the model and comes in as a parameter. */
module JsonSpan {
  import opened Wrappers

  /** Position of the first `c` in `s`. */
  function IndexOf(s: string, c: char): (r: Option<nat>)
    ensures r.Some? ==> r.value < |s| && s[r.value] == c
    ensures r.Some? ==> forall k :: 0 <= k < r.value ==> s[k] != c
    ensures r.None? ==> forall k :: 0 <= k < |s| ==> s[k] != c
  {
    if |s| == 0 then None
    else if s[0] == c then Some(0)
    else match IndexOf(s[1..], c)
      case None => None
      case Some(i) => Some(i + 1)
  }

  /** Position of the last `c` in `s`. */
  function LastIndexOf(s: string, c: char): (r: Option<nat>)
    ensures r.Some? ==> r.value < |s| && s[r.value] == c
    ensures r.Some? ==> forall k :: r.value < k < |s| ==> s[k] != c
    ensures r.None? ==> forall k :: 0 <= k < |s| ==> s[k] != c
  {
    if |s| == 0 then None
    else if s[|s| - 1] == c then Some(|s| - 1)
    else LastIndexOf(s[..|s| - 1], c)
  }

  /** `text[i..j]` is a string the regular expression accepts: an opening
      brace, anything, a closing brace. */
  predicate IsMatch(text: string, i: int, j: int)
  {
    0 <= i && i + 2 <= j <= |text| && text[i] == '{' && text[j - 1] == '}'
  }

  /** The bounds `[start, end)` of the regular expression's match. */
  function Span(text: string): Option<(nat, nat)>
  {
    match IndexOf(text, '{')
    case None => None
    case Some(i) =>
      match LastIndexOf(text, '}')
      case None => None
      case Some(j) => if j < i then None else Some((i, j + 1))
  }

  /** `match[0]`, or `None` where `text.match` returns `null`. */
  function MatchedText(text: string): (r: Option<string>)
    ensures r.Some? ==> 2 <= |r.value| && r.value[0] == '{' && r.value[|r.value| - 1] == '}'
  {
    match Span(text)
    case None => None
    case Some(b) => SpanIsMatch(text); Some(text[b.0..b.1])
  }

  lemma SpanIsMatch(text: string)
    ensures Span(text).Some? ==> IsMatch(text, Span(text).value.0, Span(text).value.1)
  {
  }

  /** The span is exactly what leftmost-first, greedy matching selects: there
      is none iff the text holds no match at all; otherwise it is a match,
      no match starts further left, and none at the same start reaches
      further right. */
  lemma SpanIsLeftmostGreedy(text: string)
    ensures Span(text).None? <==> forall i, j :: !IsMatch(text, i, j)
    ensures Span(text).Some? ==>
              var (s, e) := Span(text).value;
              IsMatch(text, s, e) &&
              forall i, j :: IsMatch(text, i, j) ==> s < i || (s == i && j <= e)
  {
    match IndexOf(text, '{')
    case None =>
    case Some(i) =>
      match LastIndexOf(text, '}')
      case None =>
      case Some(j) =>
        if j < i {
          forall i', j' ensures !IsMatch(text, i', j') {
          }
        } else {
          assert IsMatch(text, i, j + 1);
        }
  }

  /** `text[i..j]` is the match the regular expression reports: a match, and
      no match starts further left or, at the same start, ends further right. */
  ghost predicate LeftmostGreedy(text: string, i: int, j: int)
  {
    IsMatch(text, i, j) && forall i', j' :: IsMatch(text, i', j') ==> i < i' || (i == i' && j' <= j)
  }

  /** In terms of the two braces: no span iff no `}` follows the first `{`;
      otherwise it runs from the first `{` to the last `}`. */
  lemma SpanFromBraces(text: string)
    ensures MatchedText(text).None? <==>
              IndexOf(text, '{').None? ||
              forall k :: IndexOf(text, '{').value < k < |text| ==> text[k] != '}'
    ensures MatchedText(text).Some? ==>
              MatchedText(text).value
                == text[IndexOf(text, '{').value .. LastIndexOf(text, '}').value + 1]
  {
  }

  /** The text "{} and {}" selects all of it rather than the first object. */
  lemma GreedyNotBalanced()
    ensures MatchedText("{} and {}") == Some("{} and {}")
  {
    var t := "{} and {}";
    assert IndexOf(t, '{') == Some(0);
    assert LastIndexOf(t, '}') == Some(8);
    assert t[0..9] == t;
  }

  /** `extractJSON(text)`: `null` without a match, otherwise whatever
      `JSON.parse` makes of the matched text (`null` when it throws). */
  function ExtractJson<A>(text: string, parse: string -> Option<A>): (r: Option<A>)
    ensures (forall i, j :: !IsMatch(text, i, j)) ==> r.None?
    ensures forall i, j :: LeftmostGreedy(text, i, j) ==> r == parse(text[i..j])
  {
    SpanIsLeftmostGreedy(text);
    match MatchedText(text)
    case None => None
    case Some(m) => parse(m)
  }

  /** The two places the gateway's reply may carry the generated text
      (`data.result.response`, `data.response`); `None` is an absent field. */
  datatype GatewayReply = GatewayReply(resultResponse: Option<string>, response: Option<string>)

  /** `response?.data?.result?.response || response?.data?.response || ''`:
      an empty string counts as absent. */
  function RawText(reply: GatewayReply): (raw: string)
    ensures reply.resultResponse.Some? && reply.resultResponse.value != "" ==>
              raw == reply.resultResponse.value
    ensures (reply.resultResponse.None? || reply.resultResponse.value == "") ==>
              raw == reply.response.GetOr("")
  {
    if reply.resultResponse.Some? && reply.resultResponse.value != "" then reply.resultResponse.value
    else if reply.response.Some? && reply.response.value != "" then reply.response.value
    else ""
  }

  /** `checkSpam` after the network call: `None` for a failed or timed-out
      call (`reply == None`), otherwise the extraction from the raw text. */
  function Classify<A>(reply: Option<GatewayReply>, parse: string -> Option<A>): (r: Option<A>)
    ensures reply.None? ==> r.None?
    ensures reply.Some? && (forall i, j :: !IsMatch(RawText(reply.value), i, j)) ==> r.None?
    ensures reply.Some? ==>
              forall i, j :: LeftmostGreedy(RawText(reply.value), i, j) ==> r == parse(RawText(reply.value)[i..j])
  {
    match reply
    case None => None
    case Some(g) => ExtractJson(RawText(g), parse)
  }
}
