/** The per-guild state tracker: a table of states filled lazily, a refresh deadline
    taken as the earliest applicable reset time, and outstanding status requests that
    a Mudae report completes once. */
module StateManager {
  import opened Base
  import opened MudaeInfo
  import opened MudaeState

  /** `Min(ref a, b)`: a null `b` leaves `a` alone, otherwise `a` becomes the smaller. */
  function Min(a: Ticks, b: Option<Ticks>): (r: Ticks)
    ensures b.None? ==> r == a
    ensures b.Some? ==> r <= a && r <= b.value && (r == a || r == b.value)
  {
    if b.None? then a else if a < b.value then a else b.value
  }

  /** The reset times the deadline waits for: the claim reset while no claim is
      available, the rolls reset when no roll is left, the kakera reset while the power
      does not cover one claim, and the daily kakera reset while it is not available. */
  function Terms(s: State): seq<Ticks> {
    (if !s.canClaim then [s.claimReset] else [])
    + (if s.rollsLeft == 0 then [s.rollsReset] else [])
    + (if s.kakeraPower - s.kakeraConsumption < 0 then [s.kakeraReset] else [])
    + (if !s.canKakeraDaily then [s.kakeraDailyReset] else [])
  }

  /** The update time of the guild loop: DateTime.MaxValue lowered by each applicable
      reset time in turn. */
  function Deadline(s: State): Ticks {
    var t0 := DateTimeMaxValue;
    var t1 := if !s.canClaim then Min(t0, Some(s.claimReset)) else t0;
    var t2 := if s.rollsLeft == 0 then Min(t1, Some(s.rollsReset)) else t1;
    var t3 := if s.kakeraPower - s.kakeraConsumption < 0 then Min(t2, Some(s.kakeraReset)) else t2;
    if !s.canKakeraDaily then Min(t3, Some(s.kakeraDailyReset)) else t3
  }

  /** The deadline is the least of DateTime.MaxValue and the applicable reset times:
      it lies below each of them and is one of them. */
  lemma DeadlineSpec(s: State)
    ensures Deadline(s) <= DateTimeMaxValue
    ensures forall k :: 0 <= k < |Terms(s)| ==> Deadline(s) <= Terms(s)[k]
    ensures Deadline(s) == DateTimeMaxValue || exists k :: 0 <= k < |Terms(s)| && Deadline(s) == Terms(s)[k]
  {
    var a := if !s.canClaim then [s.claimReset] else [];
    var b := if s.rollsLeft == 0 then [s.rollsReset] else [];
    var c := if s.kakeraPower - s.kakeraConsumption < 0 then [s.kakeraReset] else [];
    var d := if !s.canKakeraDaily then [s.kakeraDailyReset] else [];
    assert Terms(s) == a + b + c + d;
    var t := Deadline(s);
    if t != DateTimeMaxValue {
      if t == s.kakeraDailyReset && !s.canKakeraDaily {
        assert Terms(s)[|a + b + c|] == t;
      } else if t == s.kakeraReset && s.kakeraPower - s.kakeraConsumption < 0 {
        assert Terms(s)[|a + b|] == t;
      } else if t == s.rollsReset && s.rollsLeft == 0 {
        assert Terms(s)[|a|] == t;
      } else {
        assert Terms(s)[0] == t;
      }
    }
  }

  /** `now >= updateTime || state.ForceNextRefresh`. */
  predicate ShouldRefresh(s: State, now: Ticks) {
    now >= Deadline(s) || s.forceNextRefresh
  }

  /** A refresh is due exactly when it is forced, when DateTime.MaxValue has been
      reached, or when one of the applicable reset times has passed. */
  lemma ShouldRefreshSpec(s: State, now: Ticks)
    ensures ShouldRefresh(s, now) <==>
              s.forceNextRefresh || now >= DateTimeMaxValue
              || exists k :: 0 <= k < |Terms(s)| && now >= Terms(s)[k]
  {
    DeadlineSpec(s);
  }

  /** A state with nothing pending (a claim, rolls, enough kakera power and the daily
      kakera all available) is refreshed only when forced. */
  lemma NothingPendingWaits(s: State, now: Ticks)
    requires s.canClaim && s.rollsLeft != 0 && s.kakeraPower - s.kakeraConsumption >= 0 && s.canKakeraDaily
    requires now < DateTimeMaxValue
    ensures ShouldRefresh(s, now) <==> s.forceNextRefresh
  {
    ShouldRefreshSpec(s, now);
    assert Terms(s) == [];
  }

  /** The state Get stores for a guild it has not seen: a new state whose next
      refresh is forced. */
  function Fresh(): (s: State)
    ensures s == Default().(forceNextRefresh := true)
  {
    Default().(forceNextRefresh := true)
  }

  /** The table after Get(guild). */
  function AfterGet(states: map<Snowflake, State>, guild: Snowflake): map<Snowflake, State> {
    if guild in states then states else states[guild := Fresh()]
  }

  /** Get returns the stored state when there is one, and otherwise stores and returns
      a fresh one; no other guild's entry changes, and a second Get returns the same
      state and changes nothing. */
  lemma AfterGetSpec(states: map<Snowflake, State>, guild: Snowflake)
    ensures var t := AfterGet(states, guild);
            guild in t && t.Keys == states.Keys + {guild}
            && (guild in states ==> t[guild] == states[guild])
            && (guild !in states ==> t[guild] == Fresh() && t[guild].forceNextRefresh)
            && (forall g :: g in states && g != guild ==> t[g] == states[g])
            && AfterGet(t, guild) == t
  {
  }

  /** `guild.TextChannels.FirstOrDefault(c => BotChannelIds.Contains(c.Id))`. */
  function FirstBotChannel(textChannels: seq<Snowflake>, botChannelIds: set<Snowflake>): (r: Option<Snowflake>)
    ensures r.None? <==> forall k :: 0 <= k < |textChannels| ==> textChannels[k] !in botChannelIds
    ensures r.Some? ==> exists k :: 0 <= k < |textChannels| && textChannels[k] == r.value
                          && r.value in botChannelIds
                          && forall j :: 0 <= j < k ==> textChannels[j] !in botChannelIds
  {
    if textChannels == [] then None
    else if textChannels[0] in botChannelIds then Some(textChannels[0])
    else
      var r := FirstBotChannel(textChannels[1..], botChannelIds);
      if r.Some? then
        ghost var k :| 0 <= k < |textChannels[1..]| && textChannels[1..][k] == r.value
                     && r.value in botChannelIds
                     && forall j :: 0 <= j < k ==> textChannels[1..][j] !in botChannelIds;
        assert textChannels[k + 1] == r.value;
        r
      else r
  }

  /** How the status request of a refresh ends: the send throws, no report arrives
      within the timeout, or a report is received. */
  datatype Reply = SendThrew | TimedOut | Answered(state: State)

  /** The completion HandleMessage performs: a Mudae message in a channel with an
      outstanding request completes it when it parses as a report. */
  function Completion(sources: set<Snowflake>, author: User, channel: Snowflake, report: Option<State>): (r: Option<State>)
    ensures r.Some? <==> IsMudae(author) && channel in sources && report.Some?
    ensures r.Some? ==> r == report
  {
    if IsMudae(author) && channel in sources && report.Some? then report else None
  }

  /** A request is completed once: after a completion removes the channel, no later
      message completes it until a new request is registered. */
  lemma CompletesOnce(sources: set<Snowflake>, author: User, author2: User, channel: Snowflake,
                      report: Option<State>, report2: Option<State>)
    requires Completion(sources, author, channel, report).Some?
    ensures Completion(sources - {channel}, author2, channel, report2).None?
  {
  }

  /** MudaeStateManager: the guild states and the channels with an outstanding
      status request. */
  class Manager {
    var states: map<Snowflake, State>
    var sources: set<Snowflake>

    constructor()
      ensures states == map[] && sources == {}
    {
      states := map[];
      sources := {};
    }

    /** Get: the stored state, or a fresh one that is stored first. */
    method Get(guild: Snowflake) returns (s: State)
      modifies this
      ensures states == AfterGet(old(states), guild)
      ensures s == states[guild]
      ensures sources == old(sources)
    {
      if guild !in states {
        states := states[guild := Fresh()];
      }
      s := states[guild];
    }

    /** HandleMessage: completes the channel's request and removes it when the message
      is Mudae's and parses as a report; any other message changes nothing. */
    method HandleMessage(author: User, channel: Snowflake, report: Option<State>) returns (completed: Option<State>)
      modifies this
      ensures completed == Completion(old(sources), author, channel, report)
      ensures sources == if completed.Some? then old(sources) - {channel} else old(sources)
      ensures states == old(states)
    {
      completed := None;
      if IsMudae(author) && channel in sources {
        if report.Some? {
          sources := sources - {channel};
          completed := report;
        }
      }
    }

    /** RefreshAsync: without a bot channel nothing is sent and false is returned;
      otherwise a request is registered for the channel and removed again on every
      exit, and only a received report replaces the guild's state. */
    method Refresh(guild: Snowflake, textChannels: seq<Snowflake>, botChannelIds: set<Snowflake>, reply: Reply)
      returns (refreshed: bool)
      modifies this
      ensures var channel := FirstBotChannel(textChannels, botChannelIds);
              (refreshed <==> channel.Some? && reply.Answered?)
              && (channel.None? ==> sources == old(sources))
              && (channel.Some? ==> sources == old(sources) - {channel.value})
      ensures states == if refreshed then old(states)[guild := reply.state] else old(states)
    {
      var channel := FirstBotChannel(textChannels, botChannelIds);
      if channel.None? {
        return false;
      }
      sources := sources + {channel.value};
      if !reply.Answered? {
        // the send threw or the request was cancelled: the finally block removes it
        sources := sources - {channel.value};
        return false;
      }
      sources := sources - {channel.value};
      states := states[guild := reply.state];
      refreshed := true;
    }

    /** One guild of the refresh loop: Get, the deadline, and a refresh when it is due.
      `state.ForceNextRefresh = false` is written on the state fetched before the
      refresh, which a successful refresh has replaced in the table, so the table keeps
      the received report as it is. */
    method Visit(guild: Snowflake, now: Ticks, textChannels: seq<Snowflake>, botChannelIds: set<Snowflake>, reply: Reply)
      returns (attempted: bool, refreshed: bool)
      modifies this
      ensures var s := AfterGet(old(states), guild)[guild];
              attempted == ShouldRefresh(s, now)
              && (refreshed ==> attempted)
              && (attempted ==> refreshed == (FirstBotChannel(textChannels, botChannelIds).Some? && reply.Answered?))
      ensures states == if refreshed then AfterGet(old(states), guild)[guild := reply.state] else AfterGet(old(states), guild)
      ensures !attempted ==> sources == old(sources)
    {
      var s := Get(guild);
      attempted := now >= Deadline(s) || s.forceNextRefresh;
      refreshed := false;
      if attempted {
        refreshed := Refresh(guild, textChannels, botChannelIds, reply);
      }
    }
  }
}
