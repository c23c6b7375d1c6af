/** `verifyCapToken`: checks a CAP (proof-of-work captcha) token against an
    external service whose exact contract is unknown, by trying 11 paths in
    order, each with 8 POST bodies and then one GET with `?token=`. The first
    response that looks like a success settles it; if none does, the failure
    carries the last transport error. The network is a parameter `respond`
    that gives the outcome of each request; all 99 requests differ, so this
    covers every possible sequence of outcomes. */
module CapProbe {
  import opened Wrappers

  /** A decoded response body (`resp.data`). */
  datatype JVal =
    | JNull
    | JBool(b: bool)
    | JNum(n: real)
    | JStr(s: string)
    | JArr(items: seq<JVal>)
    | JObj(fields: map<string, JVal>)

  /** JavaScript truthiness (NaN is not modelled). */
  predicate Truthy(v: JVal)
  {
    match v
    case JNull => false
    case JBool(b) => b
    case JNum(n) => n != 0.0
    case JStr(s) => s != ""
    case _ => true
  }

  predicate FieldIsTrue(fields: map<string, JVal>, key: string)
  {
    key in fields && fields[key] == JBool(true)
  }

  /** `data.success === true || data.valid === true || data.ok === true`. */
  predicate NamedFlagTrue(data: JVal)
  {
    data.JObj? &&
    (FieldIsTrue(data.fields, "success") || FieldIsTrue(data.fields, "valid") || FieldIsTrue(data.fields, "ok"))
  }

  /** `v === true || v === 1 || v === 'ok'`. */
  predicate OkValue(v: JVal)
  {
    v == JBool(true) || v == JNum(1.0) || v == JStr("ok")
  }

  /** `Object.values(data).some(OkValue)`: an object's field values, an
      array's elements, a string's one-character strings; other values have
      none. */
  predicate SomeValueOk(data: JVal)
  {
    match data
    case JObj(f) => exists k :: k in f && OkValue(f[k])
    case JArr(xs) => exists i :: 0 <= i < |xs| && OkValue(xs[i])
    case JStr(s) => exists i :: 0 <= i < |s| && OkValue(JStr([s[i]]))
    case _ => false
  }

  /** What one request came back with: a 2xx body, a non-2xx response
      (its body as `JSON.stringify` renders it), or a transport failure such
      as a timeout (its message). */
  datatype Attempt = Reply(data: JVal) | HttpError(body: string) | NetworkError(message: string)

  /** The two success tests of `verifyCapToken`, in the order it applies them. */
  predicate Accepts(a: Attempt)
  {
    a.Reply? &&
    ((Truthy(a.data) && NamedFlagTrue(a.data)) || (Truthy(a.data) && SomeValueOk(a.data)))
  }

  /** The first test adds nothing to the second: a response is accepted
      exactly when some value of its body is `true`, `1` or `"ok"`. */
  lemma AcceptsIffSomeValueOk(a: Attempt)
    ensures Accepts(a) <==> a.Reply? && SomeValueOk(a.data)
  {
    if a.Reply? {
      match a.data
      case JObj(f) =>
        if FieldIsTrue(f, "success") { assert OkValue(f["success"]); }
        if FieldIsTrue(f, "valid") { assert OkValue(f["valid"]); }
        if FieldIsTrue(f, "ok") { assert OkValue(f["ok"]); }
      case JStr(s) =>
        forall i | 0 <= i < |s| ensures !OkValue(JStr([s[i]])) {
          assert |[s[i]]| != |"ok"|;
        }
      case _ =>
    }
  }

  /** The message a thrown error leaves behind. */
  function Diagnostic(a: Attempt): string
    requires !a.Reply?
  {
    match a
    case HttpError(body) => body
    case NetworkError(msg) => msg
  }

  /** One request to the service. `keepTokenFalse` records whether the POST
      body carries `keepToken: false` besides the token field. */
  datatype CapRequest =
    | Post(url: string, field: string, token: string, keepTokenFalse: bool)
    | Get(url: string, token: string)

  datatype CapResult = CapOk | CapFail(message: string)

  const NoTokenMessage: string := "无 CAP token"
  const UnknownErrorMessage: string := "未知错误"
  const DefaultEndpoint: string := "https://captcha.api.968111.xyz/api/"

  /** The paths tried, `/validate` first. */
  const Paths: seq<string> := [
    "/validate", "/api/validate",
    "/verify", "/redeem", "/solutions/verify", "/solutions/redeem",
    "/solution/verify", "/solution/redeem", "/token/verify", "/api/verify", "/"
  ]

  /** The eight POST bodies, in the order they are tried against one URL. */
  function PostsFor(url: string, token: string): seq<CapRequest>
  {
    [ Post(url, "token", token, true),
      Post(url, "captchaToken", token, true),
      Post(url, "solution", token, true),
      Post(url, "capToken", token, true),
      Post(url, "cap_token", token, true),
      Post(url, "token", token, false),
      Post(url, "solution", token, false),
      Post(url, "capToken", token, false) ]
  }

  /** Everything tried against one URL: the POSTs, then the GET. */
  function PathCandidates(url: string, token: string): seq<CapRequest>
  {
    PostsFor(url, token) + [Get(url, token)]
  }

  /** `CAP_API_ENDPOINT.replace(/\/$/, '')`. */
  function Base(endpoint: string): string
  {
    if |endpoint| > 0 && endpoint[|endpoint| - 1] == '/' then endpoint[..|endpoint| - 1] else endpoint
  }

  function CandidatesOf(base: string, token: string, paths: seq<string>): seq<CapRequest>
  {
    if |paths| == 0 then []
    else CandidatesOf(base, token, paths[..|paths| - 1]) + PathCandidates(base + paths[|paths| - 1], token)
  }

  /** Every request `verifyCapToken` may send, in the order it sends them. */
  function Candidates(endpoint: string, token: string): seq<CapRequest>
  {
    CandidatesOf(Base(endpoint), token, Paths)
  }

  /** The diagnostic of the last failed request among `sent`, if any. */
  function LastDiagnostic(sent: seq<CapRequest>, respond: CapRequest -> Attempt): Option<string>
  {
    if |sent| == 0 then None
    else
      var a := respond(sent[|sent| - 1]);
      if a.Reply? then LastDiagnostic(sent[..|sent| - 1], respond) else Some(Diagnostic(a))
  }

  /** `lastError && (...) || '未知错误'`: an empty diagnostic is falsy too. */
  function FailureMessage(last: Option<string>): string
  {
    if last.Some? && last.value != "" then last.value else UnknownErrorMessage
  }

  lemma {:induction false} CandidatesOfLength(base: string, token: string, paths: seq<string>)
    ensures |CandidatesOf(base, token, paths)| == 9 * |paths|
  {
    if |paths| > 0 {
      CandidatesOfLength(base, token, paths[..|paths| - 1]);
    }
  }

  lemma {:induction false} CandidatesOfAt(base: string, token: string, paths: seq<string>, p: int, q: int)
    requires 0 <= p < |paths| && 0 <= q < 9
    ensures |CandidatesOf(base, token, paths)| == 9 * |paths|
    ensures CandidatesOf(base, token, paths)[9 * p + q] == PathCandidates(base + paths[p], token)[q]
  {
    var n := |paths|;
    var init := paths[..n - 1];
    var front := CandidatesOf(base, token, init);
    var last := PathCandidates(base + paths[n - 1], token);
    assert CandidatesOf(base, token, paths) == front + last;
    CandidatesOfLength(base, token, init);
    assert |front| == 9 * (n - 1);
    var idx := 9 * p + q;
    if p < n - 1 {
      assert idx < |front|;
      CandidatesOfAt(base, token, init, p, q);
      assert init[p] == paths[p];
      assert (front + last)[idx] == front[idx];
    } else {
      assert idx - |front| == q;
      assert (front + last)[idx] == last[q];
    }
  }

  /** The order of probing: 99 requests; request `9p + q` goes to path `p`,
      and is the `q`-th POST body for `q < 8`, the GET for `q == 8`. */
  lemma CandidateOrder(endpoint: string, token: string, p: int, q: int)
    requires 0 <= p < 11 && 0 <= q < 9
    ensures |Candidates(endpoint, token)| == 99
    ensures var c := Candidates(endpoint, token)[9 * p + q];
            var url := Base(endpoint) + Paths[p];
            (q < 8 ==> c == PostsFor(url, token)[q]) && (q == 8 ==> c == Get(url, token))
  {
    CandidatesOfAt(Base(endpoint), token, Paths, p, q);
  }

  lemma {:induction false} CandidatesOfPrefix(base: string, token: string, paths: seq<string>, i: int)
    requires 0 <= i <= |paths|
    ensures CandidatesOf(base, token, paths[..i]) <= CandidatesOf(base, token, paths)
    decreases |paths| - i
  {
    if i < |paths| {
      var init := paths[..|paths| - 1];
      assert init[..i] == paths[..i];
      CandidatesOfPrefix(base, token, init, i);
    } else {
      assert paths[..i] == paths;
    }
  }

  lemma CandidatesOfStep(base: string, token: string, paths: seq<string>, i: int)
    requires 0 <= i < |paths|
    ensures CandidatesOf(base, token, paths[..i + 1])
              == CandidatesOf(base, token, paths[..i]) + PathCandidates(base + paths[i], token)
  {
    assert paths[..i + 1][..i] == paths[..i];
  }

  lemma LastDiagnosticStep(sent: seq<CapRequest>, req: CapRequest, respond: CapRequest -> Attempt)
    ensures LastDiagnostic(sent + [req], respond)
              == if respond(req).Reply? then LastDiagnostic(sent, respond) else Some(Diagnostic(respond(req)))
  {
    assert (sent + [req])[..|sent|] == sent;
  }

  /** The last failure of `earlier + later`: that of `later` if it has one. */
  lemma {:induction false} LastDiagnosticAppend(earlier: seq<CapRequest>, later: seq<CapRequest>, respond: CapRequest -> Attempt)
    ensures LastDiagnostic(earlier + later, respond)
              == if LastDiagnostic(later, respond).Some? then LastDiagnostic(later, respond)
                 else LastDiagnostic(earlier, respond)
  {
    if |later| == 0 {
      assert earlier + later == earlier;
    } else {
      var init := later[..|later| - 1];
      assert (earlier + later)[..|earlier + later| - 1] == earlier + init;
      LastDiagnosticAppend(earlier, init, respond);
    }
  }

  /** The requests against one URL (`base + path`): the POST bodies in turn,
      then the GET, stopping at the first accepted response. `lastError` is
      the diagnostic carried in from earlier URLs. A 404 is handled like any
      other error: the next body is tried on the same URL. */
  method ProbeUrl(url: string, token: string, respond: CapRequest -> Attempt, lastError: Option<string>)
    returns (ok: bool, tried: seq<CapRequest>, lastError': Option<string>)
    ensures tried <= PathCandidates(url, token)
    ensures ok ==> |tried| > 0 && Accepts(respond(tried[|tried| - 1]))
    ensures forall k :: 0 <= k < |tried| - 1 ==> !Accepts(respond(tried[k]))
    ensures !ok ==> tried == PathCandidates(url, token) && forall k :: 0 <= k < |tried| ==> !Accepts(respond(tried[k]))
    ensures lastError' == if LastDiagnostic(tried, respond).Some? then LastDiagnostic(tried, respond) else lastError
  {
    var posts := PostsFor(url, token);
    ghost var all := PathCandidates(url, token);
    tried := [];
    lastError' := lastError;
    var j := 0;
    while j < |posts|
      invariant 0 <= j <= |posts|
      invariant tried == all[..j]
      invariant forall k :: 0 <= k < |tried| ==> !Accepts(respond(tried[k]))
      invariant lastError' == if LastDiagnostic(tried, respond).Some? then LastDiagnostic(tried, respond) else lastError
    {
      var req := posts[j];
      var a := respond(req);
      LastDiagnosticStep(tried, req, respond);
      tried := tried + [req];
      assert tried == all[..j + 1];
      if Accepts(a) {
        return true, tried, lastError';
      }
      if !a.Reply? {
        lastError' := Some(Diagnostic(a));
      }
      j := j + 1;
    }
    var req := Get(url, token);
    var a := respond(req);
    LastDiagnosticStep(tried, req, respond);
    tried := tried + [req];
    assert tried == all;
    if !a.Reply? {
      lastError' := Some(Diagnostic(a));
    }
    ok := Accepts(a);
  }

  /** `verifyCapToken(token)`: also returns the requests it sent, in order. */
  method VerifyCapToken(endpoint: string, token: string, respond: CapRequest -> Attempt)
    returns (r: CapResult, sent: seq<CapRequest>)
    ensures token == "" ==> r == CapFail(NoTokenMessage) && sent == []
    ensures token != "" ==> sent <= Candidates(endpoint, token)
    ensures forall k :: 0 <= k < |sent| - 1 ==> !Accepts(respond(sent[k]))
    ensures r.CapOk? ==> |sent| > 0 && Accepts(respond(sent[|sent| - 1]))
    ensures r.CapOk? <==>
              token != "" &&
              exists k :: 0 <= k < |Candidates(endpoint, token)| && Accepts(respond(Candidates(endpoint, token)[k]))
    ensures token != "" && r.CapFail? ==>
              sent == Candidates(endpoint, token) && r.message == FailureMessage(LastDiagnostic(sent, respond))
  {
    if token == "" {
      return CapFail(NoTokenMessage), [];
    }
    var base := Base(endpoint);
    ghost var all := Candidates(endpoint, token);
    var lastError: Option<string> := None;
    sent := [];
    var i := 0;
    while i < |Paths|
      invariant 0 <= i <= |Paths|
      invariant sent == CandidatesOf(base, token, Paths[..i])
      invariant forall k :: 0 <= k < |sent| ==> !Accepts(respond(sent[k]))
      invariant lastError == LastDiagnostic(sent, respond)
    {
      var url := base + Paths[i];
      CandidatesOfStep(base, token, Paths, i);
      CandidatesOfPrefix(base, token, Paths, i + 1);
      ghost var done := sent;
      var ok, tried, err := ProbeUrl(url, token, respond, lastError);
      LastDiagnosticAppend(done, tried, respond);
      sent := sent + tried;
      lastError := err;
      assert sent <= all;
      if ok {
        assert sent[|sent| - 1] == all[|sent| - 1];
        return CapOk, sent;
      }
      i := i + 1;
    }
    assert Paths[..i] == Paths;
    r := CapFail(FailureMessage(lastError));
  }
}
