/** The roller: one worker per guild, kept in step with the guilds the client sees,
    whose rounds roll in the first bot channel at an interval that spreads the rolls
    left over the time to their reset, and claim the daily kakera when available. */
module AutoRoller {
  import opened Base
  import opened Strings
  import opened MudaeState
  import StateManager

  // ------------------------------------------------------------ the workers

  /** `_cancellations` after ReloadWorkers: one entry per current guild, an existing
      entry kept as it was and a new one made in generation `generation`. */
  function Reloaded(workers: map<Snowflake, nat>, guildIds: set<Snowflake>, generation: nat): map<Snowflake, nat> {
    map k | k in guildIds :: if k in workers then workers[k] else generation
  }

  /** After a reload the table's keys are the current guilds: the new ones have a new
      entry, the vanished ones are gone, and the others keep theirs. */
  lemma ReloadedSpec(workers: map<Snowflake, nat>, guildIds: set<Snowflake>, generation: nat)
    ensures Reloaded(workers, guildIds, generation).Keys == guildIds
    ensures forall k :: k in workers && k in guildIds ==> Reloaded(workers, guildIds, generation)[k] == workers[k]
    ensures forall k :: k in guildIds && k !in workers ==> Reloaded(workers, guildIds, generation)[k] == generation
  {
  }

  /** Reloading twice with the same guilds changes nothing the second time. */
  lemma ReloadedIdempotent(workers: map<Snowflake, nat>, guildIds: set<Snowflake>, g1: nat, g2: nat)
    ensures Reloaded(Reloaded(workers, guildIds, g1), guildIds, g2) == Reloaded(workers, guildIds, g1)
  {
  }

  // ------------------------------------------------------------ the channel

  /** The `foreach` over the guild's text channels that skips channels that are not
      bot channels and breaks after the first one: the first bot channel. */
  method FindBotChannel(textChannels: seq<Snowflake>, botChannelIds: set<Snowflake>) returns (channel: Option<Snowflake>)
    ensures channel == StateManager.FirstBotChannel(textChannels, botChannelIds)
  {
    var i := 0;
    while i < |textChannels|
      invariant 0 <= i <= |textChannels|
      invariant StateManager.FirstBotChannel(textChannels[i..], botChannelIds) == StateManager.FirstBotChannel(textChannels, botChannelIds)
    {
      if textChannels[i] in botChannelIds {
        assert textChannels[i..][0] == textChannels[i];
        return Some(textChannels[i]);
      }
      assert textChannels[i..][1..] == textChannels[i + 1..];
      i := i + 1;
    }
    assert textChannels[i..] == [];
    channel := None;
  }

  // ------------------------------------------------------------ rolling

  /** The configuration values a roll round reads. */
  datatype RollConfig = RollConfig(rollEnabled: bool, intervalOverride: Option<Ticks>, botChannelIds: set<Snowflake>)

  const FiveSeconds: Ticks := 5 * TicksPerSecond

  /** The interval of a round, or nothing when the round only waits a second: an
      override is used as it is; otherwise rolling must be enabled and a roll left,
      and the time to the reset is divided by the rolls left, truncating. */
  function Interval(c: RollConfig, s: State, now: Ticks): Option<Ticks> {
    if c.intervalOverride.Some? then c.intervalOverride
    else if !c.rollEnabled || s.rollsLeft <= 0 then None
    else Some(TruncatingDiv(s.rollsReset - now, s.rollsLeft))
  }

  /** An override is taken whatever the flag and the rolls left; without one nothing is
      rolled while rolling is off or no roll is left, and otherwise the rolls left,
      spaced by the interval, end within one interval before the reset (or, when the
      reset has passed, are all due at once). */
  lemma IntervalSpec(c: RollConfig, s: State, now: Ticks)
    ensures c.intervalOverride.Some? ==> Interval(c, s, now) == c.intervalOverride
    ensures c.intervalOverride.None? ==> (Interval(c, s, now).None? <==> !c.rollEnabled || s.rollsLeft <= 0)
    ensures c.intervalOverride.None? && Interval(c, s, now).Some? ==>
              var q := Interval(c, s, now).value;
              var left := s.rollsReset - now;
              (left >= 0 ==> 0 <= q * s.rollsLeft <= left < q * s.rollsLeft + s.rollsLeft)
              && (left < 0 ==> left <= q * s.rollsLeft <= 0)
  {
    if c.intervalOverride.None? && Interval(c, s, now).Some? {
      TruncatingDivBounds(s.rollsReset - now, s.rollsLeft);
    }
  }

  /** `if (interval < TimeSpan.FromSeconds(5)) interval = TimeSpan.FromSeconds(5)`. */
  function Clamped(interval: Ticks): (r: Ticks)
    ensures r >= FiveSeconds
    ensures interval >= FiveSeconds ==> r == interval
    ensures interval < FiveSeconds ==> r == FiveSeconds
  {
    if interval < FiveSeconds then FiveSeconds else interval
  }

  /** What one round of RunRollAsync does: wait a second, or roll in the first bot
      channel (if any, with the send succeeding or not) and then wait the clamped
      interval. */
  datatype RollRound = Idle | Rolled(channel: Option<Snowflake>, sent: bool, delay: Ticks)

  function RollOf(c: RollConfig, s: State, textChannels: seq<Snowflake>, now: Ticks, sendOk: bool): RollRound {
    var interval := Interval(c, s, now);
    if interval.None? then Idle
    else
      var channel := StateManager.FirstBotChannel(textChannels, c.botChannelIds);
      Rolled(channel, channel.Some? && sendOk, Clamped(interval.value))
  }

  /** `--state.RollsLeft` on the guild's state after a successful send. */
  function RollStates(states: map<Snowflake, State>, guild: Snowflake, r: RollRound): map<Snowflake, State>
    requires guild in states ==> IsInt32(states[guild].rollsLeft)
  {
    var t := StateManager.AfterGet(states, guild);
    if r.Rolled? && r.sent then t[guild := t[guild].(rollsLeft := Decrement32(t[guild].rollsLeft))] else t
  }

  /** A round decrements the rolls left by one exactly when it sent the roll command in
      a bot channel; a round that only waits, finds no bot channel or fails to send
      leaves the guild's state as Get returned it. Every round waits at least five
      seconds after rolling. */
  lemma RollSpec(c: RollConfig, states: map<Snowflake, State>, guild: Snowflake, textChannels: seq<Snowflake>,
                 now: Ticks, sendOk: bool)
    requires guild in states ==> IsInt32(states[guild].rollsLeft)
    ensures var s := StateManager.AfterGet(states, guild)[guild];
            var r := RollOf(c, s, textChannels, now, sendOk);
            var t := RollStates(states, guild, r);
            (r.Rolled? ==> r.delay >= FiveSeconds)
            && (r.Rolled? && r.sent <==> Interval(c, s, now).Some? && sendOk
                                          && StateManager.FirstBotChannel(textChannels, c.botChannelIds).Some?)
            && (r.Rolled? && r.sent && s.rollsLeft > Int32Min ==> t[guild].rollsLeft == s.rollsLeft - 1)
            && t[guild].(rollsLeft := s.rollsLeft) == s
            && (!(r.Rolled? && r.sent) ==> t[guild] == s)
            && forall h :: h in states && h != guild ==> t[h] == states[h]
  {
  }

  /** Without an override a sent roll had a roll left, so the count cannot wrap. */
  lemma RollNeverWrapsWithoutOverride(c: RollConfig, states: map<Snowflake, State>, guild: Snowflake,
                                      textChannels: seq<Snowflake>, now: Ticks, sendOk: bool)
    requires guild in states ==> IsInt32(states[guild].rollsLeft)
    requires c.intervalOverride.None?
    ensures var s := StateManager.AfterGet(states, guild)[guild];
            var r := RollOf(c, s, textChannels, now, sendOk);
            r.Rolled? && r.sent ==> s.rollsLeft > 0 && RollStates(states, guild, r)[guild].rollsLeft == s.rollsLeft - 1
  {
  }

  // ------------------------------------------------------------ daily kakera

  /** The configuration values a daily-kakera round reads. */
  datatype DailyConfig = DailyConfig(dailyKakeraEnabled: bool, botChannelIds: set<Snowflake>,
                                     dailyKakeraStateUpdate: bool, stateUpdateCommand: Option<string>)

  /** string.IsNullOrWhiteSpace. */
  predicate NullOrWhiteSpace(s: Option<string>) {
    s.None? || forall i :: 0 <= i < |s.value| ==> IsWhiteSpace(s.value[i])
  }

  /** One round of RunDailyKakeraAsync: wait, or send the daily command in the first
      bot channel; after a successful send the state update command follows when
      configured. */
  datatype DailyRound = Waited | Sent(channel: Option<Snowflake>, sent: bool, followUp: bool)

  function DailyOf(c: DailyConfig, s: State, textChannels: seq<Snowflake>, sendOk: bool): DailyRound {
    if !c.dailyKakeraEnabled || !s.canKakeraDaily then Waited
    else
      var channel := StateManager.FirstBotChannel(textChannels, c.botChannelIds);
      var sent := channel.Some? && sendOk;
      Sent(channel, sent, sent && c.dailyKakeraStateUpdate && !NullOrWhiteSpace(c.stateUpdateCommand))
  }

  function DailyStates(states: map<Snowflake, State>, guild: Snowflake, r: DailyRound): map<Snowflake, State> {
    var t := StateManager.AfterGet(states, guild);
    if r.Sent? && r.sent then t[guild := t[guild].(canKakeraDaily := false)] else t
  }

  /** The daily command is sent only when enabled and available, and then only in a
      bot channel; a successful send makes it unavailable and changes nothing else. */
  lemma DailySpec(c: DailyConfig, states: map<Snowflake, State>, guild: Snowflake, textChannels: seq<Snowflake>, sendOk: bool)
    ensures var s := StateManager.AfterGet(states, guild)[guild];
            var r := DailyOf(c, s, textChannels, sendOk);
            var t := DailyStates(states, guild, r);
            (r.Sent? && r.sent <==> c.dailyKakeraEnabled && s.canKakeraDaily && sendOk
                                     && StateManager.FirstBotChannel(textChannels, c.botChannelIds).Some?)
            && (r.Sent? && r.followUp ==> r.sent)
            && (r.Sent? && r.sent ==> !t[guild].canKakeraDaily && t[guild].(canKakeraDaily := true) == s)
            && (!(r.Sent? && r.sent) ==> t[guild] == s)
            && forall h :: h in states && h != guild ==> t[h] == states[h]
  {
  }

  /** Once sent, the daily command is not sent again until a refresh makes it
      available. */
  lemma DailyOnce(c: DailyConfig, states: map<Snowflake, State>, guild: Snowflake, textChannels: seq<Snowflake>,
                  sendOk: bool, sendOk2: bool)
    requires var s := StateManager.AfterGet(states, guild)[guild];
             var r := DailyOf(c, s, textChannels, sendOk);
             r.Sent? && r.sent
    ensures var t := DailyStates(states, guild, DailyOf(c, StateManager.AfterGet(states, guild)[guild], textChannels, sendOk));
            DailyOf(c, t[guild], textChannels, sendOk2) == Waited
  {
  }

  /** AutoRoller: the worker table, with the state manager it shares. */
  class Roller {
    var workers: map<Snowflake, nat>
    var generation: nat
    const manager: StateManager.Manager

    constructor(manager: StateManager.Manager)
      ensures this.manager == manager && workers == map[] && generation == 0
    {
      this.manager := manager;
      workers := map[];
      generation := 0;
    }

    /** ReloadWorkers: starts a worker for each guild without one and cancels the
        workers of guilds that are gone. */
    method ReloadWorkers(guilds: seq<Snowflake>) returns (started: set<Snowflake>, cancelled: set<Snowflake>)
      modifies this
      ensures workers == Reloaded(old(workers), set k | 0 <= k < |guilds| :: guilds[k], old(generation))
      ensures started == (set k | 0 <= k < |guilds| :: guilds[k]) - old(workers).Keys
      ensures cancelled == old(workers).Keys - (set k | 0 <= k < |guilds| :: guilds[k])
      ensures generation == old(generation) + 1
    {
      ghost var all := set k | 0 <= k < |guilds| :: guilds[k];
      var guildIds: set<Snowflake> := {};
      started := {};
      var i := 0;
      while i < |guilds|
        invariant 0 <= i <= |guilds|
        invariant guildIds == set k | 0 <= k < i :: guilds[k]
        invariant workers.Keys == old(workers).Keys + guildIds
        invariant forall g :: g in old(workers) ==> workers[g] == old(workers)[g]
        invariant forall g :: g in workers && g !in old(workers) ==> workers[g] == generation
        invariant started == guildIds - old(workers).Keys
        invariant generation == old(generation)
      {
        var g := guilds[i];
        assert (set k | 0 <= k < i + 1 :: guilds[k]) == guildIds + {g};
        guildIds := guildIds + {g};
        i := i + 1;
        if g in workers {
          continue;
        }
        workers := workers[g := generation];
        started := started + {g};
      }
      assert guildIds == all;
      cancelled := {};
      var keys := workers.Keys;
      ghost var seen: set<Snowflake> := {};
      while keys != {}
        invariant keys + seen == old(workers).Keys + all
        invariant keys !! seen
        invariant guildIds == all - seen
        invariant workers.Keys == (old(workers).Keys + all) - (seen - all)
        invariant forall g :: g in workers && g in old(workers) ==> workers[g] == old(workers)[g]
        invariant forall g :: g in workers && g !in old(workers) ==> workers[g] == generation
        invariant cancelled == seen - all
        invariant started == all - old(workers).Keys
        invariant generation == old(generation)
        decreases keys
      {
        var id :| id in keys;
        keys := keys - {id};
        seen := seen + {id};
        var removed := id in guildIds;
        guildIds := guildIds - {id};
        if !removed && id in workers {
          workers := workers - {id};
          cancelled := cancelled + {id};
        }
      }
      assert workers == Reloaded(old(workers), all, generation);
      generation := generation + 1;
    }

    /** One round of RunRollAsync for `guild`. */
    method RollRoundFor(c: RollConfig, guild: Snowflake, textChannels: seq<Snowflake>, now: Ticks, sendOk: bool)
      returns (r: RollRound)
      requires guild in manager.states ==> IsInt32(manager.states[guild].rollsLeft)
      modifies manager
      ensures r == RollOf(c, StateManager.AfterGet(old(manager.states), guild)[guild], textChannels, now, sendOk)
      ensures manager.states == RollStates(old(manager.states), guild, r)
      ensures manager.sources == old(manager.sources)
    {
      var state := manager.Get(guild);
      var interval := Interval(c, state, now);
      if interval.None? {
        return Idle;
      }
      var channel := FindBotChannel(textChannels, c.botChannelIds);
      var sent := false;
      if channel.Some? && sendOk {
        manager.states := manager.states[guild := state.(rollsLeft := Decrement32(state.rollsLeft))];
        sent := true;
      }
      r := Rolled(channel, sent, Clamped(interval.value));
    }

    /** One round of RunDailyKakeraAsync for `guild`. */
    method DailyRoundFor(c: DailyConfig, guild: Snowflake, textChannels: seq<Snowflake>, sendOk: bool)
      returns (r: DailyRound)
      modifies manager
      ensures r == DailyOf(c, StateManager.AfterGet(old(manager.states), guild)[guild], textChannels, sendOk)
      ensures manager.states == DailyStates(old(manager.states), guild, r)
      ensures manager.sources == old(manager.sources)
    {
      var state := manager.Get(guild);
      if !c.dailyKakeraEnabled || !state.canKakeraDaily {
        return Waited;
      }
      var channel := FindBotChannel(textChannels, c.botChannelIds);
      var sent := false;
      var followUp := false;
      if channel.Some? && sendOk {
        manager.states := manager.states[guild := state.(canKakeraDaily := false)];
        sent := true;
        followUp := c.dailyKakeraStateUpdate && !NullOrWhiteSpace(c.stateUpdateCommand);
      }
      r := Sent(channel, sent, followUp);
    }
  }
}
