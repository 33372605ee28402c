/** The older kakera claimer: Mudae's messages in bot channels are cached for five
    minutes, and a Mudae reaction with a targeted kakera on a cached message is
    answered while the guild's kakera power covers it, each claim consuming power. */
module AutoKakera {
  import opened Base
  import opened MudaeInfo
  import opened MudaeState
  import StateManager
  import ClaimEmojiFilter

  type KakeraType = ClaimEmojiFilter.KakeraType

  /** The keys of this class's kakera map, compared case-sensitively; the red kakera's
      key is written with a capital K. */
  function KeyOf(t: KakeraType): string {
    match t
    case Purple => "kakeraP"
    case Blue => "kakera"
    case Teal => "kakeraT"
    case Green => "kakeraG"
    case Yellow => "kakeraY"
    case Orange => "kakeraO"
    case Red => "KakeraR"
    case Rainbow => "kakeraW"
  }

  /** `_kakeraMap.TryGetValue(name, out kakera)` with the default (ordinal) comparer. */
  function KakeraOf(name: string): Option<KakeraType> {
    if name == "kakeraP" then Some(ClaimEmojiFilter.Purple)
    else if name == "kakera" then Some(ClaimEmojiFilter.Blue)
    else if name == "kakeraT" then Some(ClaimEmojiFilter.Teal)
    else if name == "kakeraG" then Some(ClaimEmojiFilter.Green)
    else if name == "kakeraY" then Some(ClaimEmojiFilter.Yellow)
    else if name == "kakeraO" then Some(ClaimEmojiFilter.Orange)
    else if name == "KakeraR" then Some(ClaimEmojiFilter.Red)
    else if name == "kakeraW" then Some(ClaimEmojiFilter.Rainbow)
    else None
  }

  /** The lookup finds a kind exactly for that kind's key, as written: the eight keys
      are distinct, so the map is a bijection between them and the kinds. */
  lemma KakeraOfSpec(name: string, t: KakeraType)
    ensures KakeraOf(name) == Some(t) <==> name == KeyOf(t)
    ensures KakeraOf(name).None? <==> forall u :: name != KeyOf(u)
  {
    if KakeraOf(name).None? {
      forall u ensures name != KeyOf(u) {
        match u
        case Purple => case Blue => case Teal => case Green =>
        case Yellow => case Orange => case Red => case Rainbow =>
      }
    } else {
      assert name == KeyOf(KakeraOf(name).value);
    }
  }

  /** The lookup is case-sensitive: "kakeraR" and "KAKERA" name no kind (the newer
      filter, which ignores case, reads them as red and blue). */
  lemma KakeraOfCaseSensitive()
    ensures KakeraOf("kakeraR").None? && KakeraOf("KAKERA").None?
    ensures KakeraOf("KakeraR") == Some(ClaimEmojiFilter.Red)
  {
    assert "kakeraR"[0] != "KakeraR"[0];
  }

  // ------------------------------------------------------------ the cache

  /** A cached message's timestamp in ticks. */
  datatype Cached = Cached(timestamp: Ticks)

  datatype Message = Message(id: Snowflake, channelId: Snowflake, isUserMessage: bool,
                             author: User, hasEmbeds: bool, timestamp: Ticks)

  /** HandleMessageAsync's gates: a user message, Mudae's, with an embed, in a bot
      channel. Unlike the reaction, caching does not depend on claiming being enabled. */
  predicate Cacheable(botChannelIds: set<Snowflake>, m: Message) {
    m.isUserMessage && IsMudae(m.author) && m.hasEmbeds && m.channelId in botChannelIds
  }

  /** `(DateTimeOffset.Now - m.Timestamp).TotalMinutes >= 5`. */
  predicate Stale(c: Cached, now: Ticks) {
    now - c.timestamp >= 5 * TicksPerMinute
  }

  /** The cache after the eviction loop. */
  function Evicted(cache: map<Snowflake, Cached>, now: Ticks): (r: map<Snowflake, Cached>)
    ensures r.Keys <= cache.Keys
  {
    map k | k in cache && !Stale(cache[k], now) :: cache[k]
  }

  /** The cache after a message. */
  function CacheAfter(cache: map<Snowflake, Cached>, botChannelIds: set<Snowflake>, m: Message, now: Ticks)
    : map<Snowflake, Cached>
  {
    if Cacheable(botChannelIds, m) then Evicted(cache[m.id := Cached(m.timestamp)], now) else cache
  }

  /** A message that passes the gates is stored and then every entry at least five
      minutes old is dropped, the new one included; the other entries stay as they
      were. Any other message leaves the cache alone, stale entries included. */
  lemma CacheAfterSpec(cache: map<Snowflake, Cached>, botChannelIds: set<Snowflake>, m: Message, now: Ticks, k: Snowflake)
    ensures var c := CacheAfter(cache, botChannelIds, m, now);
            (!Cacheable(botChannelIds, m) ==> c == cache)
            && (Cacheable(botChannelIds, m) ==>
                  (k in c <==> (k == m.id && now - m.timestamp < 5 * TicksPerMinute)
                               || (k in cache && k != m.id && !Stale(cache[k], now)))
                  && (k in c ==> c[k] == (if k == m.id then Cached(m.timestamp) else cache[k])))
  {
  }

  /** After a qualifying message no entry is five minutes old or more. */
  lemma NothingStaleAfterCaching(cache: map<Snowflake, Cached>, botChannelIds: set<Snowflake>, m: Message, now: Ticks)
    requires Cacheable(botChannelIds, m)
    ensures forall k :: k in CacheAfter(cache, botChannelIds, m, now) ==> !Stale(CacheAfter(cache, botChannelIds, m, now)[k], now)
  {
  }

  method Evict(cache: map<Snowflake, Cached>, now: Ticks) returns (kept: map<Snowflake, Cached>)
    ensures kept == Evicted(cache, now)
  {
    kept := Purge(cache, (c: Cached) => Stale(c, now));
  }

  // ------------------------------------------------------------ the reaction

  /** The configuration values the reaction reads. */
  datatype Config = Config(claimEnabled: bool, botChannelIds: set<Snowflake>, kakeraTargets: set<KakeraType>)

  /** A reaction: its channel (with its guild when it is a guild channel), the message
      it is on, the reacting user as resolved (null when unknown) and the emote name. */
  datatype Reaction = Reaction(channelId: Snowflake, guildId: Option<Snowflake>, messageId: Snowflake,
                               user: Option<User>, emoteName: string)

  /** Each gate of HandleReactionAsync in order, then the claim, whose reaction either
      throws or is sent. */
  datatype Outcome =
    | Disabled | NotGuildChannel | NotBotChannel | NotCached | NotMudae | NotKakera
    | NotTargeted | NoPower | SendThrew | Claimed(kind: KakeraType)

  /** The power of the guild's state covers one claim. */
  predicate Covered(s: State) { s.kakeraPower - s.kakeraConsumption >= 0 }

  function OutcomeOf(c: Config, cache: map<Snowflake, Cached>, states: map<Snowflake, State>, r: Reaction, sent: bool): Outcome {
    if !c.claimEnabled then Disabled
    else if r.guildId.None? then NotGuildChannel
    else if r.channelId !in c.botChannelIds then NotBotChannel
    else if r.messageId !in cache then NotCached
    else if r.user.None? || !IsMudae(r.user.value) then NotMudae
    else if KakeraOf(r.emoteName).None? then NotKakera
    else if KakeraOf(r.emoteName).value !in c.kakeraTargets then NotTargeted
    else if !Covered(StateManager.AfterGet(states, r.guildId.value)[r.guildId.value]) then NoPower
    else if !sent then SendThrew
    else Claimed(KakeraOf(r.emoteName).value)
  }

  /** `state.KakeraPower -= state.KakeraConsumption`. */
  function Consumed(s: State): (t: State)
    ensures t.kakeraPower == s.kakeraPower - s.kakeraConsumption
    ensures t.(kakeraPower := s.kakeraPower) == s
  {
    s.(kakeraPower := s.kakeraPower - s.kakeraConsumption)
  }

  /** The state table after a reaction: a reaction that reaches the power check has
      fetched the guild's state, and a claim consumes its power. */
  function StatesAfter(states: map<Snowflake, State>, r: Reaction, o: Outcome): map<Snowflake, State> {
    if (o.NoPower? || o.SendThrew? || o.Claimed?) && r.guildId.Some? then
      var g := r.guildId.value;
      var t := StateManager.AfterGet(states, g);
      if o.Claimed? then t[g := Consumed(t[g])] else t
    else states
  }

  /** A claim happens exactly when every gate passes in order: claiming enabled, a
      guild channel that is a bot channel, a cached message, a Mudae reactor, an emote
      named by a key, a targeted kind, and power covering the consumption; then the
      kind is the one the emote names. */
  lemma ClaimedSpec(c: Config, cache: map<Snowflake, Cached>, states: map<Snowflake, State>, r: Reaction, sent: bool)
    ensures OutcomeOf(c, cache, states, r, sent).Claimed? <==>
              c.claimEnabled && r.guildId.Some? && r.channelId in c.botChannelIds && r.messageId in cache
              && r.user.Some? && IsMudae(r.user.value)
              && (exists t :: r.emoteName == KeyOf(t) && t in c.kakeraTargets)
              && Covered(StateManager.AfterGet(states, r.guildId.value)[r.guildId.value]) && sent
    ensures OutcomeOf(c, cache, states, r, sent).Claimed? ==>
              r.emoteName == KeyOf(OutcomeOf(c, cache, states, r, sent).kind)
  {
    if OutcomeOf(c, cache, states, r, sent).Claimed? {
      KakeraOfSpec(r.emoteName, KakeraOf(r.emoteName).value);
    }
    if exists t :: r.emoteName == KeyOf(t) && t in c.kakeraTargets {
      var t :| r.emoteName == KeyOf(t) && t in c.kakeraTargets;
      KakeraOfSpec(r.emoteName, t);
    }
  }

  /** A claim lowers the guild's power by exactly its consumption and changes nothing
      else; a reaction stopped before the power check changes no state. */
  lemma StatesAfterSpec(c: Config, cache: map<Snowflake, Cached>, states: map<Snowflake, State>, r: Reaction, sent: bool)
    ensures var o := OutcomeOf(c, cache, states, r, sent);
            var t := StatesAfter(states, r, o);
            (o.Claimed? ==>
               var g := r.guildId.value;
               var s := StateManager.AfterGet(states, g)[g];
               t[g].kakeraPower == s.kakeraPower - s.kakeraConsumption
               && t[g].(kakeraPower := s.kakeraPower) == s
               && t.Keys == states.Keys + {g}
               && forall h :: h in states && h != g ==> t[h] == states[h])
            && (!o.NoPower? && !o.SendThrew? && !o.Claimed? ==> t == states)
  {
  }

  /** The cached message stays cached after a claim, so the same reaction claims again
      as long as the remaining power still covers the consumption. */
  lemma ClaimsRepeat(c: Config, cache: map<Snowflake, Cached>, states: map<Snowflake, State>, r: Reaction)
    requires OutcomeOf(c, cache, states, r, true).Claimed?
    requires Covered(StatesAfter(states, r, OutcomeOf(c, cache, states, r, true))[r.guildId.value])
    ensures OutcomeOf(c, cache, StatesAfter(states, r, OutcomeOf(c, cache, states, r, true)), r, true)
            == OutcomeOf(c, cache, states, r, true)
  {
  }

  /** A guild whose state was never fetched has no power and no consumption, which
      counts as covered: the first qualifying reaction there is claimed. */
  lemma UnseenGuildClaims(c: Config, cache: map<Snowflake, Cached>, states: map<Snowflake, State>, r: Reaction)
    requires r.guildId.Some? && r.guildId.value !in states
    requires OutcomeOf(c, cache, states, r, true).NoPower? || OutcomeOf(c, cache, states, r, true).Claimed?
    ensures OutcomeOf(c, cache, states, r, true).Claimed?
  {
  }

  /** AutoKakera: the message cache, with the state manager it shares. */
  class Kakera {
    var cache: map<Snowflake, Cached>
    const manager: StateManager.Manager

    constructor(manager: StateManager.Manager)
      ensures this.manager == manager && cache == map[]
    {
      this.manager := manager;
      cache := map[];
    }

    /** HandleMessageAsync: caches a qualifying message and evicts stale entries. */
    method HandleMessage(botChannelIds: set<Snowflake>, m: Message, now: Ticks)
      modifies this
      ensures cache == CacheAfter(old(cache), botChannelIds, m, now)
    {
      if !m.isUserMessage || !IsMudae(m.author) || !m.hasEmbeds || m.channelId !in botChannelIds {
        return;
      }
      cache := cache[m.id := Cached(m.timestamp)];
      cache := Evict(cache, now);
    }

    /** HandleReactionAsync: the gates, then the reaction and the power decrement; the
        cache is only read. */
    method HandleReaction(c: Config, r: Reaction, sent: bool) returns (o: Outcome)
      modifies manager
      ensures o == OutcomeOf(c, cache, old(manager.states), r, sent)
      ensures manager.states == StatesAfter(old(manager.states), r, o)
      ensures manager.sources == old(manager.sources)
    {
      o := OutcomeOf(c, cache, manager.states, r, sent);
      if o.NoPower? || o.SendThrew? || o.Claimed? {
        var state := manager.Get(r.guildId.value);
        if o.Claimed? {
          manager.states := manager.states[r.guildId.value := Consumed(state)];
        }
      }
    }
  }
}
