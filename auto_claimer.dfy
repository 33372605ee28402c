/** The older claimer: a queue of wished characters keyed by message id, filled by
    Mudae's roll messages and never emptied, and a heart reaction that claims and
    marks the guild as unable to claim. */
module AutoClaimer {
  import opened Base
  import opened Strings
  import opened TimeRegex
  import opened MudaeInfo
  import opened MudaeState
  import ConfigManager
  import StateManager
  import ClaimEmojiFilter

  /** A compiled wishlist regex, or null. */
  type Wishlist = Option<set<seq<ConfigManager.Token>>>

  /** The configuration values the claimer reads. */
  datatype Config = Config(claimEnabled: bool, botChannelIds: set<Snowflake>,
                           characterRegex: Wishlist, animeRegex: Wishlist)

  datatype Author = Author(name: string, iconUrl: Option<string>)

  /** An embed: its author, its description and its footer text, each possibly absent. */
  datatype Embed = Embed(author: Option<Author>, description: Option<string>, footer: Option<string>)

  datatype Message = Message(id: Snowflake, channelId: Snowflake, guildId: Snowflake,
                             isUserMessage: bool, author: User, embeds: seq<Embed>)

  /** HandleMessageAsync's gates: claiming enabled, a user message, Mudae's, in a bot
      channel. */
  predicate Handled(c: Config, m: Message) {
    c.claimEnabled && m.isUserMessage && IsMudae(m.author) && m.channelId in c.botChannelIds
  }

  // ------------------------------------------------------------ the footer

  const BelongsPrefix: string := "Belongs to"

  /** `^\s*\d+\s*\/\s*\d+\s*` found by IsMatch: anchored at the start only, so the
      trailing white space adds nothing. */
  predicate ImFooter(s: string) {
    var b0 := Run(s, 0, Space);
    var d1 := Run(s, b0, Digit);
    var b1 := Run(s, b0 + d1, Space);
    var p := b0 + d1 + b1;
    d1 >= 1 && p < |s| && s[p] == '/'
    && (var b2 := Run(s, p + 1, Space); Run(s, p + 1 + b2, Digit) >= 1)
  }

  /** The pattern read declaratively: white space, `d1` digits, white space, a slash,
      white space and `d2` digits. */
  predicate ImShape(s: string, b0: nat, d1: nat, b1: nat, b2: nat, d2: nat) {
    AllIn(s, 0, b0, Space) && d1 >= 1 && AllIn(s, b0, d1, Digit) && AllIn(s, b0 + d1, b1, Space)
    && b0 + d1 + b1 < |s| && s[b0 + d1 + b1] == '/'
    && AllIn(s, b0 + d1 + b1 + 1, b2, Space) && d2 >= 1 && AllIn(s, b0 + d1 + b1 + 1 + b2, d2, Digit)
  }

  lemma DigitNotSpace(c: char)
    requires IsDigit(c)
    ensures !IsWhiteSpace(c)
  {
  }

  /** Backtracking cannot shorten a run: each run is followed by a character of
      another class. */
  lemma ImShapeComplete(s: string, b0: nat, d1: nat, b1: nat, b2: nat, d2: nat)
    requires ImShape(s, b0, d1, b1, b2, d2)
    ensures ImFooter(s)
  {
    LeftRuns(s, b0, d1, b1);
    RightRuns(s, b0 + d1 + b1 + 1, b2, d2);
  }

  /** Before the slash: white space, digits and white space, each run maximal. */
  lemma LeftRuns(s: string, b0: nat, d1: nat, b1: nat)
    requires AllIn(s, 0, b0, Space) && d1 >= 1 && AllIn(s, b0, d1, Digit) && AllIn(s, b0 + d1, b1, Space)
    requires b0 + d1 + b1 < |s| && s[b0 + d1 + b1] == '/'
    ensures Run(s, 0, Space) == b0 && Run(s, b0, Digit) == d1 && Run(s, b0 + d1, Space) == b1
  {
    DigitNotSpace(s[b0]);
    RunIsMaximal(s, 0, b0, Space);
    if b1 > 0 {
      assert IsWhiteSpace(s[b0 + d1]);
    }
    RunIsMaximal(s, b0, d1, Digit);
    RunIsMaximal(s, b0 + d1, b1, Space);
  }

  /** After the slash: maximal white space, then at least one digit. */
  lemma RightRuns(s: string, q: nat, b2: nat, d2: nat)
    requires AllIn(s, q, b2, Space) && d2 >= 1 && AllIn(s, q + b2, d2, Digit)
    ensures Run(s, q, Space) == b2 && Run(s, q + b2, Digit) >= 1
  {
    DigitNotSpace(s[q + b2]);
    RunIsMaximal(s, q, b2, Space);
    RunFacts(s, q + b2, Digit);
  }

  /** The runs ImFooter measures satisfy the declarative pattern. */
  lemma RunsShape(s: string, b0: nat, d1: nat, b1: nat, b2: nat, d2: nat)
    requires b0 == Run(s, 0, Space) && d1 == Run(s, b0, Digit) && b1 == Run(s, b0 + d1, Space)
    requires b0 + d1 + b1 < |s| && s[b0 + d1 + b1] == '/'
    requires b2 == Run(s, b0 + d1 + b1 + 1, Space) && d2 == Run(s, b0 + d1 + b1 + 1 + b2, Digit)
    requires d1 >= 1 && d2 >= 1
    ensures ImShape(s, b0, d1, b1, b2, d2)
  {
    SpaceThenDigits(s, 0, b0, d1);
    RunFacts(s, b0 + d1, Space);
    SpaceThenDigits(s, b0 + d1 + b1 + 1, b2, d2);
  }

  /** A run of white space and the run of digits after it. */
  lemma SpaceThenDigits(s: string, q: nat, b: nat, d: nat)
    requires q <= |s| && b == Run(s, q, Space) && d == Run(s, q + b, Digit)
    ensures AllIn(s, q, b, Space) && AllIn(s, q + b, d, Digit)
  {
    RunFacts(s, q, Space);
    RunFacts(s, q + b, Digit);
  }

  lemma ImFooterSound(s: string)
    requires ImFooter(s)
    ensures exists b0: nat, d1: nat, b1: nat, b2: nat, d2: nat :: ImShape(s, b0, d1, b1, b2, d2)
  {
    var b0 := Run(s, 0, Space);
    var d1 := Run(s, b0, Digit);
    var b1 := Run(s, b0 + d1, Space);
    var b2 := Run(s, b0 + d1 + b1 + 1, Space);
    RunsShape(s, b0, d1, b1, b2, Run(s, b0 + d1 + b1 + 1 + b2, Digit));
  }

  lemma ImFooterAgrees(s: string)
    ensures ImFooter(s) <==> exists b0: nat, d1: nat, b1: nat, b2: nat, d2: nat :: ImShape(s, b0, d1, b1, b2, d2)
  {
    if ImFooter(s) {
      ImFooterSound(s);
    }
    forall b0: nat, d1: nat, b1: nat, b2: nat, d2: nat | ImShape(s, b0, d1, b1, b2, d2) ensures ImFooter(s) {
      ImShapeComplete(s, b0, d1, b1, b2, d2);
    }
  }

  /** "3 / 10" is the footer of `$im`; a footer must start with the digits, so
      "Page 3 / 10" is not. */
  lemma ImFooterExamples()
    ensures ImFooter(" 3 / 10")
    ensures !ImFooter("Page 3 / 10")
  {
    var s := " 3 / 10";
    assert ImShape(s, 1, 1, 1, 1, 2);
    ImShapeComplete(s, 1, 1, 1, 1, 2);
    var t := "Page 3 / 10";
    assert Run(t, 0, Space) == 0;
    assert Run(t, 0, Digit) == 0;
  }

  /** The footer makes the message ignored: it belongs to someone, ignoring case, or
      it is the footer of `$im`. */
  predicate FooterIgnored(footer: Option<string>) {
    footer.Some? && (StartsWithIgnoreCase(footer.value, BelongsPrefix) || ImFooter(footer.value))
  }

  // ------------------------------------------------------------ the message

  /** What HandleMudaeMessageAsync reads off the first embed: nothing (an ignoring
      footer, no author or an author with an icon), an exception (no description), or
      the trimmed, lower-cased name and first description line. */
  datatype Reading = Skipped | Failed | Read(character: string, anime: string)

  function FirstLine(s: string): string { SplitAll(s, {'\n'})[0] }

  function ReadEmbed(e: Embed): Reading {
    if FooterIgnored(e.footer) then Skipped
    else if e.author.None? || e.author.value.iconUrl.Some? then Skipped
    else if e.description.None? then Failed
    else Read(ToLower(Trim(e.author.value.name)), ToLower(Trim(FirstLine(e.description.value))))
  }

  /** `matched |= characterRegex?.IsMatch(character) ?? false`, then the same for the
      anime: a null regex matches nothing. */
  predicate Matched(c: Config, character: string, anime: string) {
    ConfigManager.WishlistMatch(c.characterRegex, character) || ConfigManager.WishlistMatch(c.animeRegex, anime)
  }

  /** A queued roll: where it was posted and the character it shows. */
  datatype QueueItem = QueueItem(channelId: Snowflake, guildId: Snowflake, name: string, anime: string)

  datatype Verdict = Ignored | Threw | NotWished | OnCooldown | Queued(item: QueueItem)

  /** `!state.CanClaim && DateTime.Now < state.ClaimReset`. */
  predicate Blocked(s: State, now: Ticks) { !s.canClaim && now < s.claimReset }

  /** The outcome of HandleMessageAsync, on the state table as it was before. */
  function VerdictOf(c: Config, m: Message, states: map<Snowflake, State>, now: Ticks): Verdict {
    if !Handled(c, m) || m.embeds == [] then Ignored
    else
      var r := ReadEmbed(m.embeds[0]);
      if r.Skipped? then Ignored
      else if r.Failed? then Threw
      else if !Matched(c, r.character, r.anime) then NotWished
      else if Blocked(StateManager.AfterGet(states, m.guildId)[m.guildId], now) then OnCooldown
      else Queued(QueueItem(m.channelId, m.guildId, r.character, r.anime))
  }

  /** The queue after a message: a queued roll is stored under its message id. */
  function QueueAfter(queue: map<Snowflake, QueueItem>, m: Message, v: Verdict): map<Snowflake, QueueItem> {
    if v.Queued? then queue[m.id := v.item] else queue
  }

  /** The state table after a message: a matched character fetches the guild's state. */
  function StatesAfter(states: map<Snowflake, State>, m: Message, v: Verdict): map<Snowflake, State> {
    if v.OnCooldown? || v.Queued? then StateManager.AfterGet(states, m.guildId) else states
  }

  /** A roll is queued exactly when every gate passes, the first embed's footer does
      not ignore it, its author has no icon, its description exists, the trimmed,
      lower-cased name or first line is wished, and the guild is not waiting for its
      claim reset; the item then holds those two strings. */
  lemma ReadEmbedSpec(e: Embed)
    ensures ReadEmbed(e).Read? <==> !FooterIgnored(e.footer) && e.author.Some? && e.author.value.iconUrl.None? && e.description.Some?
    ensures ReadEmbed(e).Read? ==> ReadEmbed(e) == Read(ToLower(Trim(e.author.value.name)), ToLower(Trim(FirstLine(e.description.value))))
  {
  }

  lemma QueuedSpec(c: Config, m: Message, states: map<Snowflake, State>, now: Ticks)
    ensures VerdictOf(c, m, states, now).Queued? <==>
              Handled(c, m) && m.embeds != [] && ReadEmbed(m.embeds[0]).Read?
              && Matched(c, ReadEmbed(m.embeds[0]).character, ReadEmbed(m.embeds[0]).anime)
              && !Blocked(StateManager.AfterGet(states, m.guildId)[m.guildId], now)
    ensures VerdictOf(c, m, states, now).Queued? ==>
              VerdictOf(c, m, states, now).item
                == QueueItem(m.channelId, m.guildId, ReadEmbed(m.embeds[0]).character, ReadEmbed(m.embeds[0]).anime)
  {
  }

  /** A footer that belongs to someone or that of `$im` makes the message ignored,
      whatever the rest of the embed holds. */
  lemma FooterIgnoredSpec(c: Config, m: Message, states: map<Snowflake, State>, now: Ticks,
                          b0: nat, d1: nat, b1: nat, b2: nat, d2: nat)
    requires m.embeds != [] && m.embeds[0].footer.Some?
    requires var text := m.embeds[0].footer.value;
             StartsWithIgnoreCase(text, BelongsPrefix) || ImShape(text, b0, d1, b1, b2, d2)
    ensures VerdictOf(c, m, states, now) == Ignored
  {
    var text := m.embeds[0].footer.value;
    if !StartsWithIgnoreCase(text, BelongsPrefix) {
      ImShapeComplete(text, b0, d1, b1, b2, d2);
    }
  }

  /** Two null regexes match nothing, so nothing is queued. */
  lemma NullRegexesQueueNothing(c: Config, m: Message, states: map<Snowflake, State>, now: Ticks)
    requires c.characterRegex.None? && c.animeRegex.None?
    ensures !VerdictOf(c, m, states, now).Queued?
  {
  }

  /** A guild whose state was never fetched gets a fresh state, which cannot claim
      until DateTime.MaxValue: a wished character found there is skipped. */
  lemma UnseenGuildWaits(c: Config, m: Message, states: map<Snowflake, State>, now: Ticks)
    requires m.guildId !in states && now < DateTimeMaxValue
    requires VerdictOf(c, m, states, now).OnCooldown? || VerdictOf(c, m, states, now).Queued?
    ensures VerdictOf(c, m, states, now).OnCooldown?
    ensures StatesAfter(states, m, VerdictOf(c, m, states, now))[m.guildId] == StateManager.Fresh()
  {
  }

  /** The queue is written by message id only: it keeps every entry, and only the
      message's own entry can change. */
  lemma QueueOnlyGrows(queue: map<Snowflake, QueueItem>, m: Message, v: Verdict)
    ensures queue.Keys <= QueueAfter(queue, m, v).Keys
    ensures forall k :: k in queue && k != m.id ==> QueueAfter(queue, m, v)[k] == queue[k]
    ensures v.Queued? ==> QueueAfter(queue, m, v)[m.id] == v.item
  {
  }

  // ------------------------------------------------------------ the reaction

  /** This class's own copy of the heart table. */
  const HeartEmotes: seq<string> := [
    "\U{1F498}", "\U{1F49D}", "\U{1F496}", "\U{1F497}", "\U{1F493}", "\U{1F49E}",
    "\U{1F495}", "\U{1F49F}", "\U{2764}", "\U{1F9E1}", "\U{1F49B}", "\U{1F49A}",
    "\U{1F499}", "\U{1F49C}", "\U{1F90E}", "\U{1F5A4}", "\U{1F90D}", "\U{2665}"
  ]

  /** `Array.IndexOf(_heartEmotes, reaction.Emote) != -1`: a Unicode emoji of the table. */
  predicate IsHeart(e: ClaimEmojiFilter.Emoji) {
    e.Local? && ClaimEmojiFilter.IndexOf(HeartEmotes, e.name) != -1
  }

  /** The table holds the same eighteen hearts as the claim-emoji filter's, so the two
      recognise the same reactions: exactly the Unicode emoji of the table. */
  lemma SameHearts(e: ClaimEmojiFilter.Emoji)
    ensures HeartEmotes == ClaimEmojiFilter.HeartNames
    ensures IsHeart(e) <==> ClaimEmojiFilter.IsHeart(e)
    ensures IsHeart(e) <==> e.Local? && e.name in HeartEmotes
  {
  }

  datatype ReactionResult = NotQueued | NotHeart | ReactFailed | Claimed(guildId: Snowflake)

  /** HandleReactionAsync: a queued message, a heart, and a reaction that is sent. */
  function ReactionOf(queue: map<Snowflake, QueueItem>, messageId: Snowflake, e: ClaimEmojiFilter.Emoji, sent: bool): ReactionResult {
    if messageId !in queue then NotQueued
    else if !IsHeart(e) then NotHeart
    else if !sent then ReactFailed
    else Claimed(queue[messageId].guildId)
  }

  /** `_state.Get(guildId).CanClaim = false`: the fetched state, stored back with the
      flag cleared. */
  function Disabled(states: map<Snowflake, State>, guild: Snowflake): map<Snowflake, State> {
    var t := StateManager.AfterGet(states, guild);
    t[guild := t[guild].(canClaim := false)]
  }

  /** A claim happens exactly for a queued message, a heart and a sent reaction, in the
      queued roll's guild; that guild then cannot claim, its other fields are those
      Get returns, and no other guild changes. */
  lemma ReactionSpec(queue: map<Snowflake, QueueItem>, messageId: Snowflake, e: ClaimEmojiFilter.Emoji, sent: bool,
                     states: map<Snowflake, State>)
    ensures ReactionOf(queue, messageId, e, sent).Claimed? <==> messageId in queue && IsHeart(e) && sent
    ensures ReactionOf(queue, messageId, e, sent).Claimed? ==>
              var g := queue[messageId].guildId;
              var t := Disabled(states, g);
              ReactionOf(queue, messageId, e, sent).guildId == g
              && !t[g].canClaim
              && t[g] == StateManager.AfterGet(states, g)[g].(canClaim := false)
              && t.Keys == states.Keys + {g}
              && forall h :: h in states && h != g ==> t[h] == states[h]
  {
  }

  /** AutoClaimer: the claim queue, with the state manager it shares. */
  class Claimer {
    var queue: map<Snowflake, QueueItem>
    const manager: StateManager.Manager

    constructor(manager: StateManager.Manager)
      ensures this.manager == manager && queue == map[]
    {
      this.manager := manager;
      queue := map[];
    }

    /** HandleMessageAsync: decides, fetches the guild's state for a matched
        character, and queues the roll. */
    method HandleMessage(c: Config, m: Message, now: Ticks) returns (v: Verdict)
      modifies this, manager
      ensures v == VerdictOf(c, m, old(manager.states), now)
      ensures queue == QueueAfter(old(queue), m, v)
      ensures manager.states == StatesAfter(old(manager.states), m, v)
      ensures manager.sources == old(manager.sources)
    {
      v := VerdictOf(c, m, manager.states, now);
      Apply(m, v);
    }

    /** The effects of a verdict: a matched character fetches the guild's state, and a
        queued roll is stored under its message id. */
    method Apply(m: Message, v: Verdict)
      modifies this, manager
      ensures queue == QueueAfter(old(queue), m, v)
      ensures manager.states == StatesAfter(old(manager.states), m, v)
      ensures manager.sources == old(manager.sources)
    {
      if v.OnCooldown? || v.Queued? {
        var _ := manager.Get(m.guildId);
      }
      if v.Queued? {
        queue := queue[m.id := v.item];
      }
    }

    /** HandleReactionAsync: the queue is read and never emptied, and a sent heart
        clears the guild's CanClaim. */
    method HandleReaction(messageId: Snowflake, e: ClaimEmojiFilter.Emoji, sent: bool) returns (r: ReactionResult)
      modifies manager
      ensures r == ReactionOf(queue, messageId, e, sent)
      ensures manager.states == if r.Claimed? then Disabled(old(manager.states), r.guildId) else old(manager.states)
      ensures manager.sources == old(manager.sources)
    {
      if messageId !in queue {
        return NotQueued;
      }
      if ClaimEmojiFilter.IndexOf(HeartEmotes, e.name) == -1 || !e.Local? {
        return NotHeart;
      }
      if !sent {
        return ReactFailed;
      }
      var guild := queue[messageId].guildId;
      var s := manager.Get(guild);
      manager.states := manager.states[guild := s.(canClaim := false)];
      r := Claimed(guild);
    }
  }
}
