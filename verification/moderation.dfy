/** The message handler `bot.on('text')` as one transition of the whole bot
    state: skip messages that are exempt, count the message, classify it,
    and enforce when the verdict crosses the threshold. The classifier's
    network call, `JSON.parse`, the random draws and the platform calls are
    all parts of the environment `Env`. */
module Moderation {
  import opened Wrappers
  import Policy
  import opened Activity
  import opened TimeDiff
  import JsonSpan
  import opened Verification
  import opened Enforcement

  datatype State = State(policy: Policy.Config, stats: Tracker, store: Store)

  /** The process at start-up: default policy, no counters, no tokens. */
  const Initial: State := State(Policy.Initial, Activity.Empty, map[])

  ghost predicate Valid(st: State)
  {
    Policy.Valid(st.policy) && Activity.Valid(st.stats) && Verification.Valid(st.store)
  }

  /** An incoming text message and the facts about its sender the handler
      consults (`lastName` is empty when the user has none). */
  datatype Message = Message(
    chatId: int, userId: int, messageId: int,
    firstName: string, lastName: string, text: string,
    inPrivateChat: bool, isAutomaticForward: bool, fromBot: bool, senderIsAdmin: bool)

  /** What the classification prompt is built from. */
  datatype ClassificationRequest = ClassificationRequest(displayName: string, count: int, elapsed: Elapsed, text: string)

  /** Everything the handler learns from outside: the clock, the CAP switch,
      the gateway's reply to a request (`None` for an error or timeout),
      `JSON.parse`, the random draws, and how the platform calls fare. */
  datatype Env = Env(
    now: int, enableCap: bool,
    gateway: ClassificationRequest -> Option<JsonSpan.GatewayReply>,
    parse: string -> Option<Analysis>,
    draws: Draws, platform: Platform)

  /** The new state, the request sent to the classifier (if any), its
      verdict, and the enforcement effects. */
  datatype Step = Step(state: State, request: Option<ClassificationRequest>, analysis: Option<Analysis>, effects: seq<Effect>)

  /** Private chats, automatic forwards from a linked channel, bots and
      administrators are ignored outright. */
  predicate Exempt(m: Message)
  {
    m.inPrivateChat || m.isAutomaticForward || m.fromBot || m.senderIsAdmin
  }

  /** `first_name` followed by `' ' + last_name` when there is one. */
  function DisplayName(m: Message): string
  {
    m.firstName + (if m.lastName != "" then " " + m.lastName else "")
  }

  function OnText(st: State, m: Message, env: Env): (r: Step)
    ensures Exempt(m) ==> r == Step(st, None, None, [])
    ensures r.state.policy == st.policy
    ensures st.store.Keys <= r.state.store.Keys <= st.store.Keys + {TokenOf(env.draws)}
    ensures !Exempt(m) ==> r.state.stats == Record(st.stats, m.chatId, m.userId, env.now)
    ensures !Exempt(m) ==>
              && r.request.Some?
              && r.request.value.displayName == DisplayName(m)
              && r.request.value.text == m.text
              && Lookup(r.state.stats, m.chatId, m.userId).Some?
              && r.request.value.count == Lookup(r.state.stats, m.chatId, m.userId).value.count
              && r.request.value.elapsed
                   == GetTimeDiff(env.now, Lookup(r.state.stats, m.chatId, m.userId).value.joinTime)
              && r.analysis == JsonSpan.Classify(env.gateway(r.request.value), env.parse)
    ensures !Triggers(r.analysis, st.policy.threshold) ==> r.effects == [] && r.state.store == st.store
    ensures Triggers(r.analysis, st.policy.threshold) ==>
              && !Exempt(m)
              && r.effects == Enforce(st.policy.actionLevel, Target(m.chatId, m.userId, m.firstName, m.messageId),
                                      r.analysis.value.spamChance.value, st.store, env.draws, env.enableCap,
                                      env.platform).effects
              && r.state.store == Enforce(st.policy.actionLevel, Target(m.chatId, m.userId, m.firstName, m.messageId),
                                          r.analysis.value.spamChance.value, st.store, env.draws, env.enableCap,
                                          env.platform).store
  {
    if Exempt(m) then Step(st, None, None, [])
    else
      var stats := Record(st.stats, m.chatId, m.userId, env.now);
      var s := Lookup(stats, m.chatId, m.userId).GetOr(Stats(env.now, 1));
      var req := ClassificationRequest(DisplayName(m), s.count, GetTimeDiff(env.now, s.joinTime), m.text);
      var analysis := JsonSpan.Classify(env.gateway(req), env.parse);
      if !Triggers(analysis, st.policy.threshold) then
        Step(st.(stats := stats), Some(req), analysis, [])
      else
        var e := Enforce(st.policy.actionLevel, Target(m.chatId, m.userId, m.firstName, m.messageId),
                         analysis.value.spamChance.value, st.store, env.draws, env.enableCap, env.platform);
        Step(State(st.policy, stats, e.store), Some(req), analysis, e.effects)
  }

  /** The handler keeps every invariant of the state. */
  lemma OnTextKeepsValid(st: State, m: Message, env: Env)
    requires Valid(st)
    ensures Valid(OnText(st, m, env).state)
  {
    if !Exempt(m) {
      RecordKeepsValid(st.stats, m.chatId, m.userId, env.now);
    }
  }

  /** A failed or timed-out classification call, or a reply without a JSON
      span, enforces nothing: the message is only counted. */
  lemma ClassifierUnavailableEnforcesNothing(st: State, m: Message, env: Env)
    requires !Exempt(m)
    requires var req := OnText(st, m, env).request.value;
             env.gateway(req).None? || JsonSpan.MatchedText(JsonSpan.RawText(env.gateway(req).value)).None?
    ensures OnText(st, m, env).effects == []
    ensures OnText(st, m, env).state == st.(stats := Record(st.stats, m.chatId, m.userId, env.now))
  {
  }

  /** A user's first message in a chat is classified as message number 1,
      sent zero hours after joining. */
  lemma FirstMessageRequest(st: State, m: Message, env: Env)
    requires !Exempt(m) && Lookup(st.stats, m.chatId, m.userId).None?
    ensures OnText(st, m, env).request.value.count == 1
    ensures OnText(st, m, env).request.value.elapsed == HoursOnly(0)
  {
  }

  /** The activity events a run of messages produces: one per non-exempt
      message. */
  function Events(msgs: seq<(Message, Env)>): seq<Event>
  {
    if |msgs| == 0 then []
    else
      var (m, env) := msgs[|msgs| - 1];
      Events(msgs[..|msgs| - 1]) + (if Exempt(m) then [] else [Event(m.chatId, m.userId, env.now)])
  }

  /** The state after handling `msgs` in order. */
  function Run(st: State, msgs: seq<(Message, Env)>): State
  {
    if |msgs| == 0 then st
    else
      var (m, env) := msgs[|msgs| - 1];
      OnText(Run(st, msgs[..|msgs| - 1]), m, env).state
  }

  lemma {:induction false} RunStatsReplay(st: State, msgs: seq<(Message, Env)>)
    ensures Run(st, msgs).stats == Replay(st.stats, Events(msgs))
    ensures Run(st, msgs).policy == st.policy
  {
    if |msgs| > 0 {
      var init := msgs[..|msgs| - 1];
      var (m, env) := msgs[|msgs| - 1];
      RunStatsReplay(st, init);
      if !Exempt(m) {
        var evs := Events(init) + [Event(m.chatId, m.userId, env.now)];
        assert evs[..|evs| - 1] == Events(init);
      } else {
        assert Events(msgs) == Events(init);
      }
    }
  }

  /** From start-up, after any interleaving of messages the counter of
      (chat, user) equals the number of their non-exempt messages and keeps
      the time of the first; the policy is untouched by messages. */
  lemma RunCounts(msgs: seq<(Message, Env)>, chat: int, user: int)
    ensures var n := Occurrences(Events(msgs), chat, user);
            && (n == 0 ==> Lookup(Run(Initial, msgs).stats, chat, user).None?)
            && (n > 0 ==> Lookup(Run(Initial, msgs).stats, chat, user)
                            == Some(Stats(FirstTime(Events(msgs), chat, user), n)))
    ensures Run(Initial, msgs).policy == Policy.Initial
  {
    RunStatsReplay(Initial, msgs);
    ReplayCounts(Events(msgs), chat, user);
  }

  /** A spam verdict of 95 against the default threshold 75 at level 1, with
      every platform call succeeding: the message is deleted, the user
      restricted, the challenge stored, the report with its link posted and
      its deletion scheduled after five minutes. */
  lemma LevelOneScenario(st: State, m: Message, env: Env)
    requires st.policy == Policy.Initial && !Exempt(m)
    requires env.platform == Platform(true, true, true)
    requires var req := OnText(st, m, env).request.value;
             JsonSpan.Classify(env.gateway(req), env.parse) == Some(Analysis(Some(1), Some(95)))
    ensures var tok := TokenOf(env.draws);
            OnText(st, m, env).effects == [
              DeleteMessage(m.chatId, m.messageId),
              RestrictSending(m.chatId, m.userId),
              StoreChallenge(tok),
              PostReport(m.chatId, ChallengeReport(m.userId, m.firstName, 95, tok)),
              ScheduleReportDeletion(m.chatId, 300000)]
    ensures TokenOf(env.draws) in OnText(st, m, env).state.store
  {
  }

  /** The same verdict at level 2: deleted, banned, a report without a link. */
  lemma LevelTwoScenario(st: State, m: Message, env: Env)
    requires st.policy == Policy.Config(2, 75) && !Exempt(m)
    requires env.platform == Platform(true, true, true)
    requires var req := OnText(st, m, env).request.value;
             JsonSpan.Classify(env.gateway(req), env.parse) == Some(Analysis(Some(1), Some(95)))
    ensures OnText(st, m, env).effects == [
              DeleteMessage(m.chatId, m.messageId),
              Ban(m.chatId, m.userId),
              PostReport(m.chatId, SanctionReport(m.firstName, 95, BanText)),
              ScheduleReportDeletion(m.chatId, 300000)]
    ensures OnText(st, m, env).state.store == st.store
  {
  }
}
