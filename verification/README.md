# Anti-spam moderation bot — a Dafny model

This project models the moderation logic of a Telegram anti-advertising bot
(`amtispambot.js`). For every text message in a group the bot counts the
sender's messages, asks a language model whether the message is advertising,
and, when the verdict `result === 1` comes with a `spamChance` at or above the
threshold, deletes the message and then either restricts the sender and posts a
link to an arithmetic challenge (action level 1) or bans the sender (levels 2
and 3). The challenge lives in an in-memory token store served by
`GET/POST /verify/:token`. When CAP is enabled, the answer is taken only after a
CAP captcha token has been checked against an external service, by probing a
fixed list of endpoints.

Everything is pure: immutable maps and records, state transitions that return
the new state, and an abstract outcome or list of effects. Telegram, HTTP, the
language model, `JSON.parse`, the clock and randomness are parameters.

Modules, one per component:

- `Policy` (`policy.dfy`): the two process-wide knobs and `/setaction`, `/setthreshold`.
- `Activity` (`activity.dfy`): the per-(chat, user) counters `userStats`.
- `TimeDiff` (`timediff.dfy`): `getTimeDiff`, in JavaScript's number arithmetic on exact reals.
- `JsonSpan` (`jsonspan.dfy`): `extractJSON`'s regular-expression span and the classifier reply handling of `checkSpam`.
- `HexToken` (`hextoken.dfy`): `crypto.randomBytes(20).toString('hex')`.
- `CapProbe` (`capprobe.dfy`): `verifyCapToken`, covering the candidate order and the success test.
- `Verification` (`verification.dfy`): the token store and the GET/POST handlers.
- `Enforcement` (`enforcement.dfy`): the decision and the effects of each action level.
- `Moderation` (`moderation.dfy`): the whole `bot.on('text')` handler over the combined state.
- `Wrappers` (`wrappers.dfy`): `Option`.

Behaviour of the code worth noting:

- The challenge operands are `Math.floor(Math.random() * 10)`, so they range over 0..9 inclusive, not [0, 9).
- Levels 2 and 3 both call `banChatMember`. Only the report text ("永久禁言" or "永久禁言并踢出") differs. Level 2 is not a restriction without removal.
- `extractJSON` takes the span from the first `{` that has a `}` after it to the LAST `}`. This is not the first balanced object (`JsonSpan.GreedyNotBalanced`).
- An unknown token gives 404 on GET and 400 on POST.
- The spam chance is compared as given. Nothing checks that it lies in 0..100.
- In `verifyCapToken` a 404 answer does not skip the rest of a path. Its branch continues with the next POST body, exactly like every other error, although its comment speaks of moving to the next path. The GET is tried after the POSTs whatever they returned, not only after 404s.

## Model

| member | source | states |
|---|---|---|
| Policy.SetAction | amtispambot.js:133-142 | Ignored exactly in a private chat or for a non-admin. Accepted exactly for an argument of 1, 2 or 3, and then only the level changes to it. Every other outcome leaves the policy unchanged. |
| Policy.SetThreshold | amtispambot.js:144-153 | Ignored exactly in a private chat or for a non-admin. Accepted exactly for an integer in 0..100, and then only the threshold changes to it. NaN and out-of-range values leave the policy unchanged. |
| Policy.RunKeepsValid | amtispambot.js:133-153 | Starting from a valid policy (such as the initial 75 / level 1), any sequence of admin commands keeps the level in {1,2,3} and the threshold in 0..100. |
| Policy.RunLevelIsLastAccepted | amtispambot.js:133-142 | After any command sequence, the level in force is the argument of the last accepted `/setaction`, or the starting level if none was accepted. |
| Activity.Record | amtispambot.js:417-423 | A first message yields `{joinTime: now, count: 1}`. A later one increments `count` and keeps `joinTime`. Every other (chat, user) entry is unchanged. |
| Activity.RecordKeepsValid | amtispambot.js:417-423 | Every stored count stays at least 1. |
| Activity.ReplayCounts | amtispambot.js:417-423 | After any interleaved log of messages, a pair's counter is absent iff it sent nothing. Otherwise it holds the number of its messages and the time of its first one. |
| TimeDiff.GetTimeDiff | amtispambot.js:80-86 | For any two clock readings, the day form appears iff at least 86400000 ms have passed, and then with at least one day. |
| TimeDiff.TimeDiffClosedForm | amtispambot.js:80-86 | For a difference ≥ 0: the day form appears iff at least 86400000 ms have passed, with days = diff div 86400000. Hours = (diff div 3600000) mod 24, which lies in 0..23. 24·days + hours equals the whole hours elapsed. |
| JsonSpan.MatchedText | amtispambot.js:69-71 | A match, when present, is at least two characters long, starts with `{` and ends with `}`. |
| JsonSpan.SpanIsLeftmostGreedy | amtispambot.js:70 | There is no span iff the text contains no `{…}` match. Otherwise the span is a match, no match starts further left, and no match at the same start ends further right. |
| JsonSpan.SpanFromBraces | amtispambot.js:69-71 | There is no span iff no `}` follows the first `{`. Otherwise the span runs from the first `{` to the last `}`. |
| JsonSpan.GreedyNotBalanced | amtispambot.js:70 | For `{} and {}` the whole text is selected, not the first object. |
| JsonSpan.ExtractJson | amtispambot.js:69-78 | Null when the text holds no `{`…`}` match at all. Otherwise the parse of exactly the leftmost-greedy match, the one `/\{[\s\S]*\}/` reports. |
| JsonSpan.RawText | amtispambot.js:402 | `data.result.response` is used when it is a non-empty string. Otherwise `data.response`, and otherwise the empty string. |
| JsonSpan.Classify | amtispambot.js:395-407 | A failed call yields null. A raw text without any match yields null. Otherwise the result is the parse of the leftmost-greedy match in the raw text. |
| HexToken.Encode | amtispambot.js:441 | A token has two characters per byte, all lower-case hexadecimal digits. |
| HexToken.RoundTrip | amtispambot.js:441 | Decoding a token gives back the random bytes. |
| HexToken.EncodeInjective | amtispambot.js:441 | Different random bytes give different tokens. |
| CapProbe.AcceptsIffSomeValueOk | amtispambot.js:360-362 | A response is accepted iff it is a 2xx body in which some value is `true`, `1` or `"ok"`. The named `success/valid/ok === true` test adds nothing. |
| CapProbe.CandidateOrder | amtispambot.js:336-358 | There are 99 requests in all. Request 9p+q goes to base + path p (with `/validate` first). It is the q-th POST body for q < 8 and the `?token=` GET for q = 8. |
| CapProbe.ProbeUrl | amtispambot.js:353-378 | For one URL the POSTs are tried in order, then the GET. It stops at the first accepted response, and every earlier response was rejected. Without success, all 9 are tried. The last transport error is carried forward. |
| CapProbe.VerifyCapToken | amtispambot.js:330-386 | An empty token fails at once with no request. Otherwise the requests sent form a prefix of the candidate order, and the call ends at the first accepted response. It succeeds iff some candidate's response is accepted. On failure all 99 were tried and the message is the last error's diagnostic, or "未知错误". |
| Verification.NewRequest | amtispambot.js:434-437 | Operands are digits 0..9. The answer is their sum for `add` and their product for `multiply`, and lies in 0..81. |
| Verification.Issue | amtispambot.js:442 | The token maps to the new record. Other tokens are unchanged. A fresh token grows the store by exactly one. |
| Verification.IssueKeepsValid | amtispambot.js:434-442 | Issuing a well-formed challenge keeps every stored record well formed. |
| Verification.GetVerify | amtispambot.js:163-173 | 404 iff the token is unknown. Otherwise the page shows the stored operands, `+` iff the operation is addition, and the CAP widget iff CAP is enabled both globally and for the record. GET has no store result, so it never changes the store. |
| Verification.PostVerify | amtispambot.js:279-327 | Each outcome is characterised by its condition, in the handler's order: invalid iff the token is unknown; CAP missing or CAP failed iff CAP is required and the CAP token is absent or rejected; after the CAP step, bad format iff the answer is not an integer, wrong iff it differs from the stored answer, unrestrict failure iff it is right but lifting the restriction fails. It verifies iff the answer matches and unrestricting succeeds. Only verification deletes the token; every other outcome leaves the store unchanged. An unrestrict call is issued only for the right answer, and targets the record's chat and user. |
| Verification.PostKeepsValid | amtispambot.js:279-327 | POST keeps every stored record well formed. |
| Verification.NoReplay | amtispambot.js:163-169 | After a successful POST, GET on the token finds nothing. Every further POST is "invalid or expired" and changes nothing. |
| Verification.RetryAfterFailure | amtispambot.js:299-325 | After any failed POST, a correct answer (with the CAP step passed) still verifies. |
| Verification.TokensIndependent | amtispambot.js:282-318 | A POST on one token changes neither GET nor POST outcomes for another token. |
| Verification.CapRequiredWithoutToken | amtispambot.js:289-290 | A right answer without a CAP token while CAP is required is rejected with 400, and the token stays. |
| Enforcement.Triggers | amtispambot.js:426-428 | No verdict never triggers. Otherwise it triggers iff `result` is 1 and `spamChance` is present and at least the threshold; its boundary and monotonicity are in `TriggerBoundary`. |
| Enforcement.TriggerBoundary | amtispambot.js:426-428 | `spamChance == threshold` triggers and `threshold − 1` does not. A null analysis or a `result` other than 1 never triggers. Lowering the threshold never disables enforcement. |
| Enforcement.Enforce | amtispambot.js:428-460 | The effects are exactly the first steps of the level's plan (delete; then restrict, store the challenge, post the linked report for level 1, or ban and post the report for other levels; then schedule the report's deletion), cut off at the first failing call. It completes iff every call succeeds. The store gains the challenge iff the level is 1 and the restriction succeeded, and is unchanged otherwise. |
| Enforcement.EnforceEffects | amtispambot.js:430-460 | The deletion comes first and takes place iff it succeeds. The user is restricted, and the challenge stored after the restriction, iff the level is 1 and deletion and restriction succeed. Other levels never restrict or store, and ban iff deletion and ban succeed. A report is posted iff every earlier call succeeds, and its deletion is scheduled iff the whole sequence completed. |
| Enforcement.LevelOneIssuesOneChallenge | amtispambot.js:433-442 | With a fresh token, level 1 adds exactly one well-formed record for that user, holding the drawn digits' sum or product. |
| Enforcement.LevelsTwoAndThreeSameBan | amtispambot.js:451-457 | Levels 2 and 3 give the same store and the same effects. They differ only in the report's action text. |
| Enforcement.TwoChallengesIndependent | amtispambot.js:441-442 | Two challenges from different random bytes get different tokens. Resolving the first leaves the second pending and unchanged. |
| Moderation.OnText | amtispambot.js:411-462 | Exempt messages change nothing. Otherwise the sender's counter is recorded before classification, and the request carries that count, the time since the counter's first message, the display name and the text. Without a trigger there are no effects and the store is unchanged. With one, the effects and the resulting store are the enforcement's. The policy is never touched. Tokens are never removed, and only the drawn token can be added. |
| Moderation.OnTextKeepsValid | amtispambot.js:411-462 | The handler keeps the policy in range, the counts positive and the stored challenges well formed. |
| Moderation.ClassifierUnavailableEnforcesNothing | amtispambot.js:395-426 | A failed or timed-out classifier call, or a reply without JSON, only counts the message. |
| Moderation.FirstMessageRequest | amtispambot.js:389-392 | A user's first message is classified as message 1, zero hours after joining. |
| Moderation.RunStatsReplay | amtispambot.js:412-423 | Handling a run of messages updates the counters exactly as replaying its non-exempt messages does. The policy is unchanged. |
| Moderation.RunCounts | amtispambot.js:412-423 | From start-up, for any interleaving, a (chat, user) counter equals the number of that pair's non-exempt messages and keeps the first message's time. |
| Moderation.LevelOneScenario | amtispambot.js:428-449 | Verdict 95 against the default 75 at level 1 gives: delete, restrict, store the token, post a report with the link, and delete the report after 300000 ms. |
| Moderation.LevelTwoScenario | amtispambot.js:451-456 | The same verdict at level 2 gives: delete, ban, post a report without a link, and schedule its deletion. No token is stored. |

## Left out

- Telegram transport: `Telegraf`, the `ctx.*` calls, message formatting and the inline button. Their outcomes are boolean inputs (`Platform`, `unrestrictOk`).
- `isSenderAdmin`, including the anonymous-admin `sender_chat` test. Its answer is an input.
- `/start` and `/help`: these are static replies.
- Express routing and the HTML/JavaScript of the challenge page. Only what the page shows (operands, operator, CAP widget) is modelled.
- The language-model call and its prompt text. The gateway's reply is an input function of the classification request. The prompt's rendering of the elapsed time as "D天H小时"/"H小时" is kept as the `Elapsed` datatype.
- `JSON.parse`: it is a parameter.
- `parseInt` and `text.split(' ')[1]`: arguments and answers arrive as `Option<int>`, with `None` for NaN.
- Enforcement.Analysis: only `result` and `spamChance` are kept, as integers or absent. The unused `spamReason` and `mockText` are dropped. So is JavaScript's coercion of non-number values in `=== 1` and `>=`; a `null` or string `spamChance` is not modelled.
- CapProbe.JVal: NaN is not modelled. Numbers are exact reals.
- The axios network probing: timeouts and error objects become the `Attempt` values returned by `respond`. The outer `try/catch` of `verifyCapToken` guards nothing that can throw in the model.
- Verification.PostVerify: the CAP verdict is a boolean input, as `CapProbe.VerifyCapToken` computes it, and is not wired to the probe. The CAP failure message text is not modelled.
- `crypto.randomBytes` and `Math.random`: their results are inputs (`Draws`). Freshness of a token is assumed only where a lemma needs it. A colliding token overwrites, as `Map.set` does.
- TimeDiff: JavaScript's double-precision rounding is not modelled. The arithmetic is exact; rounding could matter only for differences of billions of hours.
- Moderation.OnText: one clock reading `now` serves both the counter and the prompt. The policy is read once per message; an admin command landing between awaited calls is not modelled.
- Concurrency: each handler runs as one atomic transition. The interleaving that matters is two POSTs on the same token: both can pass the lookup before either reaches `verificationRequests.delete`, because of the awaited CAP check and unrestrict call, and both then succeed. `Verification.NoReplay` covers only a POST that starts after the successful one has finished.
- The `setTimeout` that deletes the report is an effect carrying its delay. Its firing and failure are not modelled.
- `.env` loading, the startup exit, `listen`, `launch` and signal handlers: these are process plumbing.
