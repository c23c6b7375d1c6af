/** The enforcement decision and the actions taken on a flagged message, as
    a list of the platform effects that took place, in order. Each platform
    call may fail; a failure throws, and the rest of the sequence is skipped
    (`try { ... } catch (err) { console.error(...) }`). */
module Enforcement {
  import opened Wrappers
  import opened Verification
  import HexToken

  /** The two fields of the classifier's JSON verdict the bot reads;
      `None` is an absent field. */
  datatype Analysis = Analysis(result: Option<int>, spamChance: Option<int>)

  /** `if (!analysisResult) return;` then
      `analysisResult.result === 1 && analysisResult.spamChance >= SPAM_CHANCE_THRESHOLD`
      (a comparison with an absent field is false). */
  predicate Triggers(a: Option<Analysis>, threshold: int)
  {
    && a.Some?
    && a.value.result == Some(1)
    && a.value.spamChance.Some?
    && a.value.spamChance.value >= threshold
  }

  /** The threshold is inclusive: a chance equal to it triggers, one point
      below does not; no verdict never triggers; raising the chance or
      lowering the threshold never turns enforcement off. */
  lemma TriggerBoundary(chance: int, threshold: int, lower: int)
    requires lower <= threshold
    ensures Triggers(Some(Analysis(Some(1), Some(threshold))), threshold)
    ensures !Triggers(Some(Analysis(Some(1), Some(threshold - 1))), threshold)
    ensures !Triggers(None, threshold)
    ensures Triggers(Some(Analysis(Some(1), Some(chance))), threshold) ==>
              Triggers(Some(Analysis(Some(1), Some(chance))), lower)
    ensures forall r :: r != Some(1) ==> !Triggers(Some(Analysis(r, Some(chance))), threshold)
  {
  }

  /** The public report. A level-1 report mentions the user by id and
      carries the verification link for `token`; a ban report names the user
      and the action taken. */
  datatype Report =
    | ChallengeReport(userId: int, username: string, spamChance: int, token: Token)
    | SanctionReport(username: string, spamChance: int, actionText: string)

  const BanText: string := "永久禁言"
  const BanAndKickText: string := "永久禁言并踢出"

  /** Five minutes, after which the report is deleted. */
  const ReportLifetimeMs: int := 300000

  datatype Effect =
    | DeleteMessage(chatId: int, messageId: int)
    | RestrictSending(chatId: int, userId: int)
    | Ban(chatId: int, userId: int)
    | StoreChallenge(token: Token)
    | PostReport(chatId: int, report: Report)
    | ScheduleReportDeletion(chatId: int, delayMs: int)

  /** Whether each platform call succeeds: the deletion of the message, the
      restriction or ban, and the posting of the report. */
  datatype Platform = Platform(deleteOk: bool, sanctionOk: bool, reportOk: bool)

  /** The random inputs of level 1: two `Math.random()` digits, the coin for
      the operation, and `crypto.randomBytes(20)`. */
  datatype Draws = Draws(num1: Digit, num2: Digit, operation: Operation, tokenBytes: seq<HexToken.byte>)

  /** The flagged message and its sender (`first_name` as the username). */
  datatype Target = Target(chatId: int, userId: int, username: string, messageId: int)

  /** The effects that took place, the token store afterwards, and whether
      every step succeeded. */
  datatype Enforced = Enforced(effects: seq<Effect>, store: Store, completed: bool)

  function TokenOf(d: Draws): Token
  {
    HexToken.Encode(d.tokenBytes)
  }

  function ChallengeOf(t: Target, d: Draws, enableCap: bool): Request
  {
    NewRequest(t.chatId, t.userId, t.username, d.num1, d.num2, d.operation, enableCap)
  }

  /** The platform steps of a level when every call succeeds, in order: the
      deletion; then for level 1 the restriction, the stored challenge and
      the report with its link; for any other level the ban and a report
      whose text alone tells 2 and 3 apart; last, the report's scheduled
      deletion. */
  function Planned(level: int, t: Target, spamChance: int, d: Draws): seq<Effect>
  {
    var schedule := ScheduleReportDeletion(t.chatId, ReportLifetimeMs);
    if level == 1 then
      [DeleteMessage(t.chatId, t.messageId), RestrictSending(t.chatId, t.userId), StoreChallenge(TokenOf(d)),
       PostReport(t.chatId, ChallengeReport(t.userId, t.username, spamChance, TokenOf(d))), schedule]
    else
      var actionText := if level == 2 then BanText else BanAndKickText;
      [DeleteMessage(t.chatId, t.messageId), Ban(t.chatId, t.userId),
       PostReport(t.chatId, SanctionReport(t.username, spamChance, actionText)), schedule]
  }

  /** How many planned steps take place: the first failing call throws and
      nothing after it runs. A failed report still leaves the steps before
      it (level 1 stores its challenge before posting). */
  function StepsTaken(level: int, p: Platform): nat
  {
    if !p.deleteOk then 0
    else if !p.sanctionOk then 1
    else if !p.reportOk then (if level == 1 then 3 else 2)
    else if level == 1 then 5 else 4
  }

  /** The enforcement of one flagged message at `level`. */
  function Enforce(level: int, t: Target, spamChance: int, store: Store, d: Draws,
                   enableCap: bool, p: Platform): (e: Enforced)
    ensures e.effects == Planned(level, t, spamChance, d)[..StepsTaken(level, p)]
    ensures e.completed <==> p.deleteOk && p.sanctionOk && p.reportOk
    ensures level == 1 && p.deleteOk && p.sanctionOk ==>
              e.store == Issue(store, TokenOf(d), ChallengeOf(t, d, enableCap))
    ensures !(level == 1 && p.deleteOk && p.sanctionOk) ==> e.store == store
  {
    if !p.deleteOk then Enforced([], store, false)
    else
      var plan := Planned(level, t, spamChance, d);
      var deleted := [DeleteMessage(t.chatId, t.messageId)];
      assert deleted == plan[..1];
      if level == 1 then
        if !p.sanctionOk then Enforced(deleted, store, false)
        else
          var token := TokenOf(d);
          var store' := Issue(store, token, ChallengeOf(t, d, enableCap));
          var issued := deleted + [RestrictSending(t.chatId, t.userId), StoreChallenge(token)];
          assert issued == plan[..3];
          if !p.reportOk then Enforced(issued, store', false)
          else
            var report := ChallengeReport(t.userId, t.username, spamChance, token);
            var effects := issued + [PostReport(t.chatId, report), ScheduleReportDeletion(t.chatId, ReportLifetimeMs)];
            assert effects == plan && effects[3].PostReport?;
            Enforced(effects, store', true)
      else
        if !p.sanctionOk then Enforced(deleted, store, false)
        else
          var banned := deleted + [Ban(t.chatId, t.userId)];
          assert banned == plan[..2];
          if !p.reportOk then Enforced(banned, store, false)
          else
            var actionText := if level == 2 then BanText else BanAndKickText;
            var report := SanctionReport(t.username, spamChance, actionText);
            var effects := banned + [PostReport(t.chatId, report), ScheduleReportDeletion(t.chatId, ReportLifetimeMs)];
            assert effects == plan && effects[2].PostReport?;
            Enforced(effects, store, true)
  }

  /** What the effects of `Enforce` say step by step: the deletion comes first
      and happens iff it succeeds; level 1 restricts the user and then stores
      the challenge, other levels ban and never restrict or store; a failed
      restriction, ban or report stops everything after it, so the report is
      posted only when every earlier call succeeded and its deletion is
      scheduled only when the whole sequence completed. */
  lemma EnforceEffects(level: int, t: Target, spamChance: int, store: Store, d: Draws,
                       enableCap: bool, p: Platform)
    ensures var e := Enforce(level, t, spamChance, store, d, enableCap, p);
            && (p.deleteOk <==> |e.effects| > 0)
            && (|e.effects| > 0 ==> e.effects[0] == DeleteMessage(t.chatId, t.messageId))
            && (RestrictSending(t.chatId, t.userId) in e.effects <==> level == 1 && p.deleteOk && p.sanctionOk)
            && (StoreChallenge(TokenOf(d)) in e.effects <==> level == 1 && p.deleteOk && p.sanctionOk)
            && (level == 1 && p.deleteOk && p.sanctionOk ==>
                  e.effects[1] == RestrictSending(t.chatId, t.userId) && e.effects[2] == StoreChallenge(TokenOf(d)))
            && (level != 1 ==> forall k :: 0 <= k < |e.effects| ==>
                  !e.effects[k].RestrictSending? && !e.effects[k].StoreChallenge?)
            && (Ban(t.chatId, t.userId) in e.effects <==> level != 1 && p.deleteOk && p.sanctionOk)
            && ((forall k :: 0 <= k < |e.effects| ==> !e.effects[k].PostReport?) <==>
                  !(p.deleteOk && p.sanctionOk && p.reportOk))
            && (ScheduleReportDeletion(t.chatId, ReportLifetimeMs) in e.effects <==> e.completed)
            && (e.completed ==> e.effects[|e.effects| - 1] == ScheduleReportDeletion(t.chatId, ReportLifetimeMs))
            && (e.completed && level == 1 ==>
                  PostReport(t.chatId, ChallengeReport(t.userId, t.username, spamChance, TokenOf(d))) in e.effects)
  {
    var e := Enforce(level, t, spamChance, store, d, enableCap, p);
    var plan := Planned(level, t, spamChance, d);
    if e.completed {
      assert e.effects == plan;
      assert e.effects[|e.effects| - 2].PostReport?;
    }
  }

  /** Level 1 with a fresh token adds exactly one record, well formed, whose
      answer is the sum or product of the drawn digits. */
  lemma LevelOneIssuesOneChallenge(t: Target, spamChance: int, store: Store, d: Draws, enableCap: bool, p: Platform)
    requires p.deleteOk && p.sanctionOk
    requires TokenOf(d) !in store
    ensures var e := Enforce(1, t, spamChance, store, d, enableCap, p);
            && e.store.Keys == store.Keys + {TokenOf(d)}
            && |e.store| == |store| + 1
            && WellFormed(e.store[TokenOf(d)])
            && e.store[TokenOf(d)].answer == (if d.operation == Add then d.num1 + d.num2 else d.num1 * d.num2)
            && e.store[TokenOf(d)].userId == t.userId && e.store[TokenOf(d)].chatId == t.chatId
  {
  }

  /** Levels 2 and 3 take the same actions; only the report wording differs. */
  lemma LevelsTwoAndThreeSameBan(t: Target, spamChance: int, store: Store, d: Draws, enableCap: bool, p: Platform)
    ensures var e2 := Enforce(2, t, spamChance, store, d, enableCap, p);
            var e3 := Enforce(3, t, spamChance, store, d, enableCap, p);
            && e2.store == e3.store == store
            && e2.completed == e3.completed
            && |e2.effects| == |e3.effects|
            && forall k :: 0 <= k < |e2.effects| && e2.effects[k] != e3.effects[k] ==>
                 e2.effects[k] == PostReport(t.chatId, SanctionReport(t.username, spamChance, BanText)) &&
                 e3.effects[k] == PostReport(t.chatId, SanctionReport(t.username, spamChance, BanAndKickText))
  {
  }

  /** Two level-1 enforcements against the same user, with different random
      bytes, leave two different tokens in the store; answering the first
      one correctly leaves the second one pending. */
  lemma TwoChallengesIndependent(t: Target, chance1: int, chance2: int, store: Store, d1: Draws, d2: Draws,
                                 enableCap: bool, capToken: string)
    requires d1.tokenBytes != d2.tokenBytes
    requires capToken != ""
    ensures var s1 := Enforce(1, t, chance1, store, d1, enableCap, Platform(true, true, true)).store;
            var s2 := Enforce(1, t, chance2, s1, d2, enableCap, Platform(true, true, true)).store;
            var answer1 := s2[TokenOf(d1)].answer;
            var after := PostVerify(s2, TokenOf(d1), Submission(Some(answer1), capToken), enableCap, true, true);
            && TokenOf(d1) != TokenOf(d2)
            && TokenOf(d1) in s2 && TokenOf(d2) in s2
            && after.outcome == Verified
            && TokenOf(d2) in after.store && after.store[TokenOf(d2)] == s2[TokenOf(d2)]
  {
    HexToken.EncodeInjective(d1.tokenBytes, d2.tokenBytes);
  }
}
