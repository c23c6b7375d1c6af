/** The verification-token store (`verificationRequests`) and the two web
    handlers on `/verify/:token`, as transitions on an immutable map. The
    outcome of `verifyCapToken` and of the platform call that lifts the
    restriction come in as booleans. Only a correct answer whose unrestrict
    call succeeds removes a token. */
module Verification {
  import opened Wrappers

  datatype Operation = Add | Multiply

  /** One pending challenge: whom it frees, the arithmetic question, the
      expected answer, and whether the CAP widget was required at issue. */
  datatype Request = Request(
    chatId: int, userId: int, username: string,
    num1: int, num2: int, operation: Operation, answer: int,
    capEnabled: bool)

  type Token = string
  type Store = map<Token, Request>

  /** A draw of `Math.floor(Math.random() * 10)`. */
  type Digit = x: int | 0 <= x <= 9

  /** A request as issued: digit operands and the answer they determine. */
  predicate WellFormed(r: Request)
  {
    && 0 <= r.num1 <= 9 && 0 <= r.num2 <= 9
    && r.answer == (match r.operation case Add => r.num1 + r.num2 case Multiply => r.num1 * r.num2)
  }

  ghost predicate Valid(s: Store)
  {
    forall t :: t in s ==> WellFormed(s[t])
  }

  /** The record the level-1 enforcement builds from its random draws. */
  function NewRequest(chatId: int, userId: int, username: string,
                      num1: Digit, num2: Digit, operation: Operation, capEnabled: bool): (r: Request)
    ensures WellFormed(r)
    ensures r.chatId == chatId && r.userId == userId && r.username == username
    ensures r.num1 == num1 && r.num2 == num2 && r.operation == operation && r.capEnabled == capEnabled
    ensures 0 <= r.answer <= 81
  {
    var answer := if operation == Add then num1 + num2 else num1 * num2;
    Request(chatId, userId, username, num1, num2, operation, answer, capEnabled)
  }

  /** `verificationRequests.set(token, request)`. */
  function Issue(s: Store, token: Token, r: Request): (s': Store)
    ensures token in s' && s'[token] == r
    ensures forall t :: t != token ==> (t in s' <==> t in s)
    ensures forall t :: t != token && t in s ==> s'[t] == s[t]
    ensures token !in s ==> |s'| == |s| + 1
  {
    s[token := r]
  }

  lemma IssueKeepsValid(s: Store, token: Token, r: Request)
    requires Valid(s) && WellFormed(r)
    ensures Valid(Issue(s, token, r))
  {
  }

  /** What `GET /verify/:token` renders: 404, or the question and whether the
      CAP widget is shown (`ENABLE_CAP && capEnabled`). GET has no store
      result: it never changes the store. */
  datatype Page = NotFound | ChallengePage(num1: int, num2: int, symbol: char, showCap: bool)

  function GetVerify(s: Store, token: Token, enableCap: bool): (p: Page)
    ensures p.NotFound? <==> token !in s
    ensures p.ChallengePage? ==>
              && p.num1 == s[token].num1 && p.num2 == s[token].num2
              && (p.symbol == '+' <==> s[token].operation == Add)
              && (p.showCap <==> enableCap && s[token].capEnabled)
  {
    if token !in s then NotFound
    else
      var r := s[token];
      ChallengePage(r.num1, r.num2, if r.operation == Add then '+' else '×', enableCap && r.capEnabled)
  }

  function PageStatus(p: Page): int
  {
    if p.NotFound? then 404 else 200
  }

  /** The posted form: `parseInt(answer, 10)` (`None` for NaN) and the CAP
      token (empty when absent). */
  datatype Submission = Submission(answer: Option<int>, capToken: string)

  /** The POST outcomes, in the order the handler checks for them. */
  datatype Outcome =
    | InvalidOrExpired   // no such token
    | CapMissing         // CAP required, no CAP token
    | CapFailed          // CAP required, verifyCapToken failed
    | BadAnswerFormat    // answer is not an integer
    | WrongAnswer
    | UnrestrictFailed   // right answer, platform call threw
    | Verified

  function Status(o: Outcome): int
  {
    match o
    case Verified => 200
    case UnrestrictFailed => 500
    case _ => 400
  }

  /** The store afterwards, and the unrestrict call issued, if any. */
  datatype PostResult = PostResult(outcome: Outcome, store: Store, unrestrict: Option<(int, int)>)

  /** Whether the CAP step must be passed for this request. */
  predicate CapRequired(r: Request, enableCap: bool)
  {
    enableCap && r.capEnabled
  }

  /** The CAP step is passed: not required, or a CAP token was submitted and
      accepted. */
  predicate CapPassed(r: Request, sub: Submission, enableCap: bool, capOk: bool)
  {
    CapRequired(r, enableCap) ==> sub.capToken != "" && capOk
  }

  /** `POST /verify/:token`. `capOk` is the verdict of `verifyCapToken` on
      the submitted CAP token; `unrestrictOk` says whether lifting the
      restriction succeeded. */
  function PostVerify(s: Store, token: Token, sub: Submission, enableCap: bool,
                      capOk: bool, unrestrictOk: bool): (res: PostResult)
    ensures res.outcome == InvalidOrExpired <==> token !in s
    ensures res.outcome == CapMissing <==> token in s && CapRequired(s[token], enableCap) && sub.capToken == ""
    ensures res.outcome == CapFailed <==>
              token in s && CapRequired(s[token], enableCap) && sub.capToken != "" && !capOk
    ensures res.outcome == BadAnswerFormat <==>
              token in s && CapPassed(s[token], sub, enableCap, capOk) && sub.answer.None?
    ensures res.outcome == WrongAnswer <==>
              && token in s && CapPassed(s[token], sub, enableCap, capOk)
              && sub.answer.Some? && sub.answer.value != s[token].answer
    ensures res.outcome == UnrestrictFailed <==>
              && token in s && CapPassed(s[token], sub, enableCap, capOk)
              && sub.answer == Some(s[token].answer) && !unrestrictOk
    ensures res.outcome == Verified <==>
              && token in s
              && CapPassed(s[token], sub, enableCap, capOk)
              && sub.answer == Some(s[token].answer)
              && unrestrictOk
    ensures res.outcome == Verified ==> token !in res.store && res.store == s - {token}
    ensures res.outcome != Verified ==> res.store == s
    ensures res.unrestrict.Some? <==> res.outcome == Verified || res.outcome == UnrestrictFailed
    ensures res.unrestrict.Some? ==>
              && sub.answer == Some(s[token].answer)
              && res.unrestrict.value == (s[token].chatId, s[token].userId)
  {
    if token !in s then PostResult(InvalidOrExpired, s, None)
    else
      var r := s[token];
      if CapRequired(r, enableCap) && sub.capToken == "" then PostResult(CapMissing, s, None)
      else if CapRequired(r, enableCap) && !capOk then PostResult(CapFailed, s, None)
      else match sub.answer
        case None => PostResult(BadAnswerFormat, s, None)
        case Some(a) =>
          if a != r.answer then PostResult(WrongAnswer, s, None)
          else if unrestrictOk then PostResult(Verified, s - {token}, Some((r.chatId, r.userId)))
          else PostResult(UnrestrictFailed, s, Some((r.chatId, r.userId)))
  }

  lemma PostKeepsValid(s: Store, token: Token, sub: Submission, enableCap: bool, capOk: bool, unrestrictOk: bool)
    requires Valid(s)
    ensures Valid(PostVerify(s, token, sub, enableCap, capOk, unrestrictOk).store)
  {
  }

  /** A consumed token cannot be used again: after a successful POST, GET
      finds nothing and every further POST is rejected as invalid or expired,
      whatever it submits, and changes nothing. This is about requests that
      arrive after the successful one has finished: two POSTs that both pass
      the lookup before either deletes the token both succeed, and that
      interleaving is outside this sequential model. */
  lemma NoReplay(s: Store, token: Token, sub: Submission, enableCap: bool, capOk: bool, unrestrictOk: bool,
                 sub2: Submission, enableCap2: bool, capOk2: bool, unrestrictOk2: bool)
    requires PostVerify(s, token, sub, enableCap, capOk, unrestrictOk).outcome == Verified
    ensures var s' := PostVerify(s, token, sub, enableCap, capOk, unrestrictOk).store;
            && GetVerify(s', token, enableCap2) == NotFound
            && PostVerify(s', token, sub2, enableCap2, capOk2, unrestrictOk2) == PostResult(InvalidOrExpired, s', None)
  {
  }

  /** A failed attempt keeps the token: a correct answer submitted afterwards
      (with the CAP step passed if required, and the platform call
      succeeding) still verifies. */
  lemma RetryAfterFailure(s: Store, token: Token, bad: Submission, enableCap: bool, capOk: bool, unrestrictOk: bool,
                          capToken: string)
    requires token in s
    requires PostVerify(s, token, bad, enableCap, capOk, unrestrictOk).outcome != Verified
    requires capToken != ""
    ensures var s' := PostVerify(s, token, bad, enableCap, capOk, unrestrictOk).store;
            PostVerify(s', token, Submission(Some(s[token].answer), capToken), enableCap, true, true).outcome == Verified
  {
  }

  /** Two challenges under different tokens are independent: resolving one
      changes nothing about how the other is answered. */
  lemma TokensIndependent(s: Store, t1: Token, t2: Token, sub1: Submission, sub2: Submission,
                          enableCap: bool, capOk1: bool, unrestrictOk1: bool, capOk2: bool, unrestrictOk2: bool)
    requires t1 != t2
    ensures var s' := PostVerify(s, t1, sub1, enableCap, capOk1, unrestrictOk1).store;
            && GetVerify(s', t2, enableCap) == GetVerify(s, t2, enableCap)
            && PostVerify(s', t2, sub2, enableCap, capOk2, unrestrictOk2).outcome
                 == PostVerify(s, t2, sub2, enableCap, capOk2, unrestrictOk2).outcome
  {
  }

  /** The scenario of a right answer posted without a CAP token while CAP is
      required: rejected, the token stays valid. */
  lemma CapRequiredWithoutToken(s: Store, token: Token, capOk: bool, unrestrictOk: bool)
    requires token in s && s[token].capEnabled
    ensures var res := PostVerify(s, token, Submission(Some(s[token].answer), ""), true, capOk, unrestrictOk);
            res.outcome == CapMissing && Status(res.outcome) == 400 && res.store == s && token in res.store
  {
  }
}
