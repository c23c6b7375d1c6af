/** The per-(chat, user) activity counters (`userStats`): the first message a
    user sends in a chat creates `{joinTime: now, count: 1}`, every later one
    increments `count`. Nothing is ever removed. `now` is the caller's clock
    reading in milliseconds. */
module Activity {
  import opened Wrappers

  datatype Stats = Stats(joinTime: int, count: int)

  /** chat id -> user id -> counters, as the nested `Map` of the bot. */
  type Tracker = map<int, map<int, Stats>>

  const Empty: Tracker := map[]

  function Lookup(t: Tracker, chat: int, user: int): Option<Stats>
  {
    if chat in t && user in t[chat] then Some(t[chat][user]) else None
  }

  /** Every stored counter has seen at least one message. */
  ghost predicate Valid(t: Tracker)
  {
    forall chat, user :: Lookup(t, chat, user).Some? ==> Lookup(t, chat, user).value.count >= 1
  }

  /** Account for one message from `user` in `chat`. */
  function Record(t: Tracker, chat: int, user: int, now: int): (t': Tracker)
    ensures Lookup(t, chat, user).None? ==> Lookup(t', chat, user) == Some(Stats(now, 1))
    ensures Lookup(t, chat, user).Some? ==>
              var s := Lookup(t, chat, user).value;
              Lookup(t', chat, user) == Some(Stats(s.joinTime, s.count + 1))
    ensures forall c, u :: c != chat || u != user ==> Lookup(t', c, u) == Lookup(t, c, u)
  {
    var inner := if chat in t then t[chat] else map[];
    var s := if user in inner then inner[user].(count := inner[user].count + 1) else Stats(now, 1);
    t[chat := inner[user := s]]
  }

  lemma RecordKeepsValid(t: Tracker, chat: int, user: int, now: int)
    requires Valid(t)
    ensures Valid(Record(t, chat, user, now))
  {
    var t' := Record(t, chat, user, now);
    forall c, u | Lookup(t', c, u).Some?
      ensures Lookup(t', c, u).value.count >= 1
    {
      if c != chat || u != user {
        assert Lookup(t', c, u) == Lookup(t, c, u);
      }
    }
  }

  /** One observed message: who sent it, where, and when. */
  datatype Event = Event(chat: int, user: int, time: int)

  /** The tracker after processing `log` in order. */
  function Replay(t: Tracker, log: seq<Event>): Tracker
  {
    if |log| == 0 then t
    else
      var e := log[|log| - 1];
      Record(Replay(t, log[..|log| - 1]), e.chat, e.user, e.time)
  }

  /** How many events of `log` come from `user` in `chat`. */
  function Occurrences(log: seq<Event>, chat: int, user: int): nat
  {
    if |log| == 0 then 0
    else
      var e := log[|log| - 1];
      Occurrences(log[..|log| - 1], chat, user) + (if e.chat == chat && e.user == user then 1 else 0)
  }

  /** Time of the first event of `log` from `user` in `chat`. */
  function FirstTime(log: seq<Event>, chat: int, user: int): int
    requires Occurrences(log, chat, user) > 0
  {
    var e := log[|log| - 1];
    if Occurrences(log[..|log| - 1], chat, user) > 0 then FirstTime(log[..|log| - 1], chat, user)
    else e.time
  }

  /** Starting from an empty tracker, the counter of (chat, user) after any
      interleaving of messages is exactly the number of their messages, and
      its join time is the time of the first of them. */
  lemma {:induction false} ReplayCounts(log: seq<Event>, chat: int, user: int)
    ensures Occurrences(log, chat, user) == 0 ==> Lookup(Replay(Empty, log), chat, user) == None
    ensures Occurrences(log, chat, user) > 0 ==>
              Lookup(Replay(Empty, log), chat, user)
                == Some(Stats(FirstTime(log, chat, user), Occurrences(log, chat, user)))
  {
    if |log| > 0 {
      ReplayCounts(log[..|log| - 1], chat, user);
    }
  }
}
