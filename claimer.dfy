/** The claimer: Mudae character announcements become pending claims keyed by the
    announcement's message id, and the first qualifying reaction on one of them
    consumes it, reacts, and records a cooldown reported in Mudae's reply. */
module Claimer {
  import opened Base
  import opened Strings
  import opened MudaeInfo
  import opened CharacterFilter
  import opened ClaimEmojiFilter

  /** ClaimingOptions as the claimer reads them. */
  datatype Options = Options(
    enabled: bool,
    ignoreCooldown: bool,
    kakeraIgnoreCooldown: bool,
    kakeraTargets: set<KakeraType>)

  /** An embed: the author's name, the description and the footer text, each absent
      when the embed has none. */
  datatype Embed = Embed(author: Option<string>, description: Option<string>, footer: Option<string>)

  /** A received message: `isUserMessage` is false for system messages; `userMentions`
      are the user ids the content mentions. */
  datatype Message = Message(
    id: Snowflake,
    channelId: Snowflake,
    isUserMessage: bool,
    author: User,
    content: string,
    embeds: seq<Embed>,
    userMentions: seq<Snowflake>)

  /** ClaimState: the per-channel times before which claiming and kakera are on cooldown. */
  datatype ClaimState = ClaimState(cooldownReset: Ticks, kakeraReset: Ticks)

  /** `new ClaimState()`: both times at DateTime.MinValue. */
  const NewClaimState: ClaimState := ClaimState(DateTimeMinValue, DateTimeMinValue)

  /** PendingClaim: when it was stored, the announcement's channel, the character and
      whether only kakera may be claimed on it. */
  datatype PendingClaim = PendingClaim(createdTime: Ticks, channelId: Snowflake, character: Character, onlyKakera: bool)

  /** The filters the claimer is given: IMudaeUserFilter, IMudaeClaimCharacterFilter
      (whose two-argument IsWished, taking the users a "wished by" message mentions, is
      not part of this model) and IMudaeClaimEmojiFilter. */
  datatype Filters = Filters(
    isMudae: User -> bool,
    isWished: (Character, Option<seq<Snowflake>>) -> bool,
    isKakeraEmoji: Emoji -> (bool, Option<KakeraType>),
    isClaimEmoji: Emoji -> bool)

  /** The filters as the application wires them: MudaeInfo.IsMudae and the newer
      MudaeClaimEmojiFilter with its CustomEmotes option. */
  function Wired(customEmotes: bool, isWished: (Character, Option<seq<Snowflake>>) -> bool): Filters {
    Filters(IsMudae, isWished, IsKakeraEmoji, e => IsClaimEmoji(customEmotes, e))
  }

  const ClaimsPrefix: string := "claims:"
  const LikesPrefix: string := "likes:"
  const BelongsPrefix: string := "belongs"
  const WishedByPrefix: string := "wished by"

  /** The first gate: claiming is enabled, the message is a user message by Mudae, its
      channel is a bot channel and it has an embed. */
  predicate Announces(o: Options, f: Filters, m: Message, botChannels: seq<Snowflake>) {
    o.enabled && m.isUserMessage && f.isMudae(m.author) && m.channelId in botChannels && m.embeds != []
  }

  /** The $im command's reply lists "claims:" or "likes:" lines. */
  predicate InventoryLines(lines: seq<string>) {
    exists k :: 0 <= k < |lines| && (StartsWithIgnoreCase(lines[k], ClaimsPrefix) || StartsWithIgnoreCase(lines[k], LikesPrefix))
  }

  /** The footer of a character that already belongs to someone. */
  predicate Belongs(e: Embed) {
    e.footer.Some? && StartsWithIgnoreCase(e.footer.value, BelongsPrefix)
  }

  /** The users a "wished by" announcement mentions, or null for any other. */
  function WishedBy(m: Message): Option<seq<Snowflake>> {
    if StartsWithIgnoreCase(m.content, WishedByPrefix) then Some(m.userMentions) else None
  }

  /** `_states.GetOrAdd(channel, new ClaimState())` read without the insertion. */
  function StateOf(states: map<Snowflake, ClaimState>, channel: Snowflake): ClaimState {
    if channel in states then states[channel] else NewClaimState
  }

  /** The insertion GetOrAdd makes. */
  function GetOrAdd(states: map<Snowflake, ClaimState>, channel: Snowflake): map<Snowflake, ClaimState> {
    if channel in states then states else states[channel := NewClaimState]
  }

  /** What HandleMessageReceived decides for an announcement. Ignored leaves everything
      unchanged; OnCooldown has looked the channel's state up (adding it); Stored has
      also stored a pending claim. Threw: a missing description or author, or a
      description without a non-empty line, makes the handler throw. */
  datatype Verdict = Ignored | Threw | OnCooldown | Stored(onlyKakera: bool, character: Character)

  /** The lines of the first embed's description, and the character they announce. */
  function Announced(e: Embed): Option<(seq<string>, Character)> {
    if e.description.None? || e.author.None? then None
    else
      var lines := SplitNonEmpty(e.description.value, {'\n'});
      if lines == [] then None else Some((lines, NewCharacter(Some(e.author.value), Some(lines[0]))))
  }

  function VerdictOf(o: Options, m: Message, botChannels: seq<Snowflake>,
                   f: Filters, states: map<Snowflake, ClaimState>, now: Ticks): Verdict
  {
    if !Announces(o, f, m, botChannels) then Ignored
    else
      var embed := m.embeds[0];
      var a := Announced(embed);
      if a.None? then Threw
      else
        var lines := a.value.0;
        var c := a.value.1;
        if InventoryLines(lines) then Ignored
        else if Belongs(embed) then
          if !o.kakeraIgnoreCooldown && now < StateOf(states, m.channelId).kakeraReset then OnCooldown
          else Stored(true, c)
        else if !f.isWished(c, WishedBy(m)) then Ignored
        else if !o.ignoreCooldown && now < StateOf(states, m.channelId).cooldownReset then OnCooldown
        else Stored(false, c)
  }

  /** A claim is stale once a minute has passed since it was stored. */
  predicate Expired(c: PendingClaim, now: Ticks) {
    c.createdTime + TicksPerMinute < now
  }

  /** The pending claims that survive the purge. */
  function Purged(pending: map<Snowflake, PendingClaim>, now: Ticks): (r: map<Snowflake, PendingClaim>)
    ensures r.Keys <= pending.Keys
  {
    map k | k in pending && !Expired(pending[k], now) :: pending[k]
  }

  function StatesAfter(states: map<Snowflake, ClaimState>, m: Message, v: Verdict): map<Snowflake, ClaimState> {
    if v.OnCooldown? || v.Stored? then GetOrAdd(states, m.channelId) else states
  }

  function PendingAfter(pending: map<Snowflake, PendingClaim>, m: Message, v: Verdict, now: Ticks)
    : map<Snowflake, PendingClaim>
  {
    if v.Stored? then Purged(pending[m.id := PendingClaim(now, m.channelId, v.character, v.onlyKakera)], now)
    else pending
  }

  /** An announcement that fails the first gate is ignored. */
  lemma IgnoredUnlessAnnounced(o: Options, m: Message, botChannels: seq<Snowflake>,
                               f: Filters, states: map<Snowflake, ClaimState>, now: Ticks)
    ensures !o.enabled || !m.isUserMessage || !f.isMudae(m.author) || m.channelId !in botChannels || m.embeds == []
            ==> VerdictOf(o, m, botChannels, f, states, now) == Ignored
    ensures VerdictOf(o, m, botChannels, f, states, now) != Ignored ==> Announces(o, f, m, botChannels)
  {
  }

  /** An $im reply (a "claims:" or "likes:" line, in any case) is ignored. */
  lemma InventoryIgnored(o: Options, m: Message, botChannels: seq<Snowflake>,
                         f: Filters, states: map<Snowflake, ClaimState>, now: Ticks, k: nat)
    requires Announces(o, f, m, botChannels) && Announced(m.embeds[0]).Some?
    requires var lines := Announced(m.embeds[0]).value.0;
             k < |lines| && (StartsWithIgnoreCase(lines[k], ClaimsPrefix) || StartsWithIgnoreCase(lines[k], LikesPrefix))
    ensures VerdictOf(o, m, botChannels, f, states, now) == Ignored
  {
  }

  /** A claim is stored exactly when the announcement passes every gate: a character
      that belongs to someone is stored for kakera only, unless kakera is on cooldown
      and the option to ignore it is off; any other is stored when it is wished and
      claiming is not on cooldown (or the cooldown is ignored). */
  lemma StoredSpec(o: Options, m: Message, botChannels: seq<Snowflake>,
                   f: Filters, states: map<Snowflake, ClaimState>, now: Ticks, onlyKakera: bool, c: Character)
    ensures VerdictOf(o, m, botChannels, f, states, now) == Stored(onlyKakera, c)
            <==> Announces(o, f, m, botChannels) && Announced(m.embeds[0]).Some?
                 && Announced(m.embeds[0]).value.1 == c
                 && !InventoryLines(Announced(m.embeds[0]).value.0)
                 && onlyKakera == Belongs(m.embeds[0])
                 && (onlyKakera ==> o.kakeraIgnoreCooldown || now >= StateOf(states, m.channelId).kakeraReset)
                 && (!onlyKakera ==> f.isWished(c, WishedBy(m))
                                     && (o.ignoreCooldown || now >= StateOf(states, m.channelId).cooldownReset))
  {
  }

  /** A channel seen for the first time has no cooldown: its times are DateTime.MinValue. */
  lemma FreshChannelNoCooldown(states: map<Snowflake, ClaimState>, channel: Snowflake, now: Ticks)
    requires channel !in states && now >= DateTimeMinValue
    ensures !(now < StateOf(states, channel).cooldownReset) && !(now < StateOf(states, channel).kakeraReset)
  {
  }

  /** The purge keeps exactly the claims stored within the last minute, so the claim
      just stored (created now) always survives it; without a stored claim nothing is
      purged. */
  lemma PendingAfterSpec(pending: map<Snowflake, PendingClaim>, m: Message, v: Verdict, now: Ticks, k: Snowflake)
    ensures v.Stored? ==> m.id in PendingAfter(pending, m, v, now)
                          && PendingAfter(pending, m, v, now)[m.id] == PendingClaim(now, m.channelId, v.character, v.onlyKakera)
    ensures v.Stored? && k != m.id ==>
              (k in PendingAfter(pending, m, v, now) <==> k in pending && !Expired(pending[k], now))
    ensures !v.Stored? ==> PendingAfter(pending, m, v, now) == pending
  {
  }

  // ------------------------------------------------------------------ reactions

  /** The branch HandleReactionAdded takes: nothing, the kakera branch (with the kakera
      kind) or the claim branch; the last two consume the pending claim. */
  datatype Branch = NoBranch | KakeraBranch(kind: KakeraType) | ClaimBranch

  function BranchOf(o: Options, pending: map<Snowflake, PendingClaim>, id: Snowflake,
                    kakera: (bool, Option<KakeraType>), claimEmoji: bool): Branch
  {
    if !o.enabled || id !in pending then NoBranch
    else if kakera.0 && kakera.1.Some? then KakeraBranch(kakera.1.value)
    else if !kakera.0 && !pending[id].onlyKakera && claimEmoji then ClaimBranch
    else NoBranch
  }

  /** The branch for a reaction with emoji `e`. */
  function BranchFor(o: Options, f: Filters, pending: map<Snowflake, PendingClaim>, id: Snowflake, e: Emoji): Branch {
    BranchOf(o, pending, id, f.isKakeraEmoji(e), f.isClaimEmoji(e))
  }

  /** `ReactAsync`'s result: Mudae's reply, or an exception. */
  datatype Reply = SendFailed | Reply(content: string)

  /** The parsers of Mudae's replies (not part of this model): who claimed, and the
      remaining cooldown. */
  datatype Parsers = Parsers(
    kakeraSucceeded: string -> Option<string>,
    kakeraFailed: string -> Option<Ticks>,
    claimSucceeded: string -> Option<string>,
    claimFailed: string -> Option<Ticks>)

  datatype ReactionResult = NoAction | NotTargeted | ReactFailed | Claimed | Cooldown(reset: Ticks) | Undetermined

  function ReactionOf(o: Options, b: Branch, selfName: string, reply: Reply, p: Parsers, now: Ticks): ReactionResult {
    if b.NoBranch? then NoAction
    else if b.KakeraBranch? && b.kind !in o.kakeraTargets then NotTargeted
    else if reply.SendFailed? then ReactFailed
    else
      var claimer := if b.KakeraBranch? then p.kakeraSucceeded(reply.content) else p.claimSucceeded(reply.content);
      var wait := if b.KakeraBranch? then p.kakeraFailed(reply.content) else p.claimFailed(reply.content);
      if claimer.Some? && EqualsIgnoreCase(claimer.value, selfName) then Claimed
      else if wait.Some? then Cooldown(now + wait.value)
      else Undetermined
  }

  /** The state written for a reported cooldown: the kakera or the claim reset time of
      the channel's state (added if missing). */
  function WithReset(states: map<Snowflake, ClaimState>, channel: Snowflake, kakera: bool, reset: Ticks)
    : (r: map<Snowflake, ClaimState>)
    ensures r.Keys == states.Keys + {channel}
    ensures forall k :: k in states && k != channel ==> r[k] == states[k]
    ensures kakera ==> r[channel] == StateOf(states, channel).(kakeraReset := reset)
    ensures !kakera ==> r[channel] == StateOf(states, channel).(cooldownReset := reset)
  {
    var s := StateOf(states, channel);
    states[channel := if kakera then s.(kakeraReset := reset) else s.(cooldownReset := reset)]
  }

  /** A reaction acts only with claiming enabled on a pending claim. A kakera emoji
      consumes the claim even when its kind is not targeted; a claim emoji consumes it
      only when the claim is not for kakera only; any other emoji leaves it. */
  lemma BranchSpec(o: Options, customEmotes: bool, isWished: (Character, Option<seq<Snowflake>>) -> bool, pending: map<Snowflake, PendingClaim>, id: Snowflake, e: Emoji)
    ensures !BranchFor(o, Wired(customEmotes, isWished), pending, id, e).NoBranch? ==> o.enabled && id in pending
    ensures o.enabled && id in pending && e.Custom? && KakeraOf(e.name).Some?
            ==> BranchFor(o, Wired(customEmotes, isWished), pending, id, e) == KakeraBranch(KakeraOf(e.name).value)
    ensures BranchFor(o, Wired(customEmotes, isWished), pending, id, e).ClaimBranch?
            <==> o.enabled && id in pending && !IsKakeraEmoji(e).0 && !pending[id].onlyKakera && IsClaimEmoji(customEmotes, e)
  {
  }

  /** A consumed claim cannot act again: once removed, every later reaction on the
      message takes no branch. */
  lemma ConsumedOnce(o: Options, f: Filters, pending: map<Snowflake, PendingClaim>, id: Snowflake, e: Emoji, e2: Emoji)
    requires !BranchFor(o, f, pending, id, e).NoBranch?
    ensures BranchFor(o, f, pending - {id}, id, e2) == NoBranch
    ensures id in pending
  {
  }

  /** Mudae's reply decides the outcome: the bot's own name (in any case) as claimer is a
      claim, else a parsed cooldown sets the reset time to now plus the wait; neither,
      or a failed send, records nothing. An untargeted kakera kind is not reacted to. */
  lemma ReactionSpec(o: Options, b: Branch, selfName: string, reply: Reply, p: Parsers, now: Ticks)
    ensures ReactionOf(o, b, selfName, reply, p, now).Cooldown? ==>
              reply.Reply? && !b.NoBranch?
              && (b.KakeraBranch? ==> p.kakeraFailed(reply.content) == Some(ReactionOf(o, b, selfName, reply, p, now).reset - now))
              && (b.ClaimBranch? ==> p.claimFailed(reply.content) == Some(ReactionOf(o, b, selfName, reply, p, now).reset - now))
    ensures b.KakeraBranch? && b.kind !in o.kakeraTargets ==> ReactionOf(o, b, selfName, reply, p, now) == NotTargeted
    ensures b.ClaimBranch? && reply.Reply? && p.claimSucceeded(reply.content) == Some(selfName)
            ==> ReactionOf(o, b, selfName, reply, p, now) == Claimed
  {
  }

  /** The decision HandleMessageReceived takes, with its early returns, given the
      channel states as they are when the message arrives. */
  method Decide(o: Options, m: Message, botChannels: seq<Snowflake>, f: Filters,
                states: map<Snowflake, ClaimState>, now: Ticks)
    returns (v: Verdict)
    ensures v == VerdictOf(o, m, botChannels, f, states, now)
  {
    if !o.enabled || !(m.isUserMessage && f.isMudae(m.author)) || m.channelId !in botChannels || |m.embeds| == 0 {
      return Ignored;
    }
    var embed := m.embeds[0];
    var announced := Announced(embed);
    if announced.None? {
      return Threw;
    }
    var (description, character) := announced.value;
    if InventoryLines(description) {
      return Ignored;
    }
    if Belongs(embed) {
      var state := StateOf(states, m.channelId);
      if !o.kakeraIgnoreCooldown && now < state.kakeraReset {
        return OnCooldown;
      }
      return Stored(true, character);
    }
    if !f.isWished(character, WishedBy(m)) {
      return Ignored;
    }
    var state := StateOf(states, m.channelId);
    if !o.ignoreCooldown && now < state.cooldownReset {
      return OnCooldown;
    }
    v := Stored(false, character);
  }

  /** The purge loop over the pending claims' keys. */
  method PurgeStale(pending: map<Snowflake, PendingClaim>, now: Ticks) returns (kept: map<Snowflake, PendingClaim>)
    ensures kept == Purged(pending, now)
  {
    kept := Purge(pending, (c: PendingClaim) => Expired(c, now));
  }

  class Claimer {
    var states: map<Snowflake, ClaimState>
    var pending: map<Snowflake, PendingClaim>

    constructor ()
      ensures states == map[] && pending == map[]
    {
      states := map[];
      pending := map[];
    }

    /** HandleMessageReceived, with the clock read once as `now`: the decision, then the
        channel's state looked up (and added) on the paths that reach the cooldown
        check, then the pending claim stored and the stale ones purged. */
    method HandleMessageReceived(o: Options, m: Message, botChannels: seq<Snowflake>, f: Filters, now: Ticks)
      returns (v: Verdict)
      modifies this
      ensures v == VerdictOf(o, m, botChannels, f, old(states), now)
      ensures states == StatesAfter(old(states), m, v)
      ensures pending == PendingAfter(old(pending), m, v, now)
    {
      v := Decide(o, m, botChannels, f, states, now);
      Record(m, v, now);
    }

    /** The writes HandleMessageReceived makes once it has decided. */
    method Record(m: Message, v: Verdict, now: Ticks)
      modifies this
      ensures states == StatesAfter(old(states), m, v)
      ensures pending == PendingAfter(old(pending), m, v, now)
    {
      if v.OnCooldown? || v.Stored? {
        states := GetOrAdd(states, m.channelId);
      }
      if v.Stored? {
        pending := pending[m.id := PendingClaim(now, m.channelId, v.character, v.onlyKakera)];
        pending := PurgeStale(pending, now);
      }
    }

    /** HandleReactionAdded on message `id` with emoji `e`: `reply` is what reacting
        would return and `selfName` is the bot's own user name. */
    method HandleReactionAdded(o: Options, f: Filters, id: Snowflake, e: Emoji,
                               selfName: string, reply: Reply, p: Parsers, now: Ticks)
      returns (r: ReactionResult)
      modifies this
      ensures var b := BranchFor(o, f, old(pending), id, e);
              r == ReactionOf(o, b, selfName, reply, p, now)
              && pending == (if b.NoBranch? then old(pending) else old(pending) - {id})
              && states == (if r.Cooldown? then WithReset(old(states), old(pending)[id].channelId, b.KakeraBranch?, r.reset)
                            else old(states))
    {
      var b := BranchOf(o, pending, id, f.isKakeraEmoji(e), f.isClaimEmoji(e));
      if b.NoBranch? {
        return NoAction;
      }
      var claim := pending[id];
      pending := pending - {id};
      if b.KakeraBranch? && b.kind !in o.kakeraTargets {
        return NotTargeted;
      }
      var isKakera := b.KakeraBranch?;
      if reply.SendFailed? {
        return ReactFailed;
      }
      var claimer := if isKakera then p.kakeraSucceeded(reply.content) else p.claimSucceeded(reply.content);
      if claimer.Some? && EqualsIgnoreCase(claimer.value, selfName) {
        return Claimed;
      }
      var wait := if isKakera then p.kakeraFailed(reply.content) else p.claimFailed(reply.content);
      if wait.Some? {
        r := Cooldown(now + wait.value);
        states := WithReset(states, claim.channelId, isKakera, now + wait.value);
        return;
      }
      r := Undetermined;
    }
  }
}
