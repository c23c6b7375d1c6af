/** The process-wide moderation policy (`ACTION_LEVEL`, `SPAM_CHANCE_THRESHOLD`)
    and the two administrator commands `/setaction` and `/setthreshold` that
    change it. The command argument arrives already parsed: `None` is what
    `parseInt` reports as `NaN`. */
module Policy {
  import opened Wrappers

  /** Both knobs are shared by every chat the bot moderates. */
  datatype Config = Config(actionLevel: int, threshold: int)

  /** The enforcement tiers: 1 restrict and challenge, 2 ban, 3 ban (reported as a kick). */
  predicate ValidLevel(level: int)
  {
    level == 1 || level == 2 || level == 3
  }

  /** A spam chance threshold is a percentage. */
  predicate ValidThreshold(threshold: int)
  {
    0 <= threshold <= 100
  }

  predicate Valid(c: Config)
  {
    ValidLevel(c.actionLevel) && ValidThreshold(c.threshold)
  }

  /** The values the process starts with. */
  const Initial: Config := Config(1, 75)

  /** Where a command came from, as the platform reports it. */
  datatype Sender = Sender(inPrivateChat: bool, isAdmin: bool)

  /** What the bot answers: nothing (private chat or not an admin), an error
      text, or a confirmation carrying the new value. */
  datatype Reply = Ignored | Rejected | Accepted(value: int)

  datatype CommandResult = CommandResult(config: Config, reply: Reply)

  /** `/setaction <level>`: `!level || ![1, 2, 3].includes(level)` rejects. */
  function SetAction(c: Config, sender: Sender, arg: Option<int>): (r: CommandResult)
    ensures r.reply.Ignored? <==> sender.inPrivateChat || !sender.isAdmin
    ensures r.reply.Accepted? <==>
              !sender.inPrivateChat && sender.isAdmin && arg.Some? && ValidLevel(arg.value)
    ensures r.reply.Accepted? ==>
              r.reply.value == arg.value && r.config == Config(arg.value, c.threshold)
    ensures !r.reply.Accepted? ==> r.config == c
  {
    if sender.inPrivateChat || !sender.isAdmin then
      CommandResult(c, Ignored)
    else
      match arg
      case None => CommandResult(c, Rejected)
      case Some(level) =>
        if level == 0 || level !in [1, 2, 3] then CommandResult(c, Rejected)
        else CommandResult(c.(actionLevel := level), Accepted(level))
  }

  /** `/setthreshold <n>`: `isNaN(n) || n < 0 || n > 100` rejects. */
  function SetThreshold(c: Config, sender: Sender, arg: Option<int>): (r: CommandResult)
    ensures r.reply.Ignored? <==> sender.inPrivateChat || !sender.isAdmin
    ensures r.reply.Accepted? <==>
              !sender.inPrivateChat && sender.isAdmin && arg.Some? && ValidThreshold(arg.value)
    ensures r.reply.Accepted? ==>
              r.reply.value == arg.value && r.config == Config(c.actionLevel, arg.value)
    ensures !r.reply.Accepted? ==> r.config == c
  {
    if sender.inPrivateChat || !sender.isAdmin then
      CommandResult(c, Ignored)
    else
      match arg
      case None => CommandResult(c, Rejected)
      case Some(threshold) =>
        if threshold < 0 || threshold > 100 then CommandResult(c, Rejected)
        else CommandResult(c.(threshold := threshold), Accepted(threshold))
  }

  /** Any sequence of administrator commands keeps the policy within range,
      starting from the initial values. */
  datatype Command = SetActionCmd(sender: Sender, arg: Option<int>)
                   | SetThresholdCmd(sender: Sender, arg: Option<int>)

  function Run(c: Config, cmds: seq<Command>): Config
  {
    if |cmds| == 0 then c
    else
      var last := cmds[|cmds| - 1];
      var prev := Run(c, cmds[..|cmds| - 1]);
      match last
      case SetActionCmd(s, a) => SetAction(prev, s, a).config
      case SetThresholdCmd(s, a) => SetThreshold(prev, s, a).config
  }

  lemma {:induction false} RunKeepsValid(c: Config, cmds: seq<Command>)
    requires Valid(c)
    ensures Valid(Run(c, cmds))
  {
    if |cmds| > 0 {
      RunKeepsValid(c, cmds[..|cmds| - 1]);
    }
  }

  /** The level in force is the argument of the last accepted `/setaction`,
      or the starting level if none was accepted; `/setthreshold` never
      touches it. */
  function LastAcceptedLevel(c: Config, cmds: seq<Command>): int
  {
    if |cmds| == 0 then c.actionLevel
    else
      var last := cmds[|cmds| - 1];
      if last.SetActionCmd? && !last.sender.inPrivateChat && last.sender.isAdmin
         && last.arg.Some? && ValidLevel(last.arg.value)
      then last.arg.value
      else LastAcceptedLevel(c, cmds[..|cmds| - 1])
  }

  lemma {:induction false} RunLevelIsLastAccepted(c: Config, cmds: seq<Command>)
    ensures Run(c, cmds).actionLevel == LastAcceptedLevel(c, cmds)
  {
    if |cmds| > 0 {
      RunLevelIsLastAccepted(c, cmds[..|cmds| - 1]);
    }
  }
}
