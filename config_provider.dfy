/** The configuration provider that reads the configuration guild's channels: list
    channels become item lists, the information channel becomes option sections, and
    lookups go through a case-insensitive table of section providers. */
module ConfigProvider {
  import opened Base
  import opened Strings

  // ------------------------------------------------------------ items

  /** A list item: an object deserialised from JSON (stood for by the JSON text), or a
      fresh object with its name, its content or its id set. */
  datatype Entry = Json(text: string) | Named(name: string) | Content(content: string) | Numbered(id: Snowflake)

  /** How DeserializeOrCreate configures a fresh object with the raw value. */
  datatype Configure = SetName | SetContent | ParseId

  /** The configure callback: `x.Name = v`, `x.Content = v`, or `x.Id = ulong.Parse(v)`,
      which throws (None) when `v` is not a ulong. */
  function Configured(how: Configure, v: string): Option<Entry> {
    match how
    case SetName => Some(Named(v))
    case SetContent => Some(Content(v))
    case ParseId => if ParseULong(v).Some? then Some(Numbered(ParseULong(v).value)) else None
  }

  /** DeserializeOrCreate: JSON when the value starts with '{', else a configured object.
      `parses` says whether `JsonConvert.DeserializeObject<T>` accepts the value; when it
      does not, the call throws (None). */
  function DeserializeOrCreate(value: string, how: Configure, parses: bool): Option<Entry> {
    if StartsWith(value, "{") then (if parses then Some(Json(value)) else None) else Configured(how, value)
  }

  /** The value is read as JSON exactly when it starts with '{' and parses; a '{' value
      that does not parse throws; otherwise the fresh object carries the raw value
      itself. */
  lemma DeserializeOrCreateSpec(value: string, how: Configure, parses: bool)
    ensures DeserializeOrCreate(value, how, parses).Some? && DeserializeOrCreate(value, how, parses).value.Json?
            <==> value != [] && value[0] == '{' && parses
    ensures value != [] && value[0] == '{' && !parses ==> DeserializeOrCreate(value, how, parses).None?
    ensures value == [] || value[0] != '{' ==>
              match how
              case SetName => DeserializeOrCreate(value, how, parses) == Some(Named(value))
              case SetContent => DeserializeOrCreate(value, how, parses) == Some(Content(value))
              case ParseId => DeserializeOrCreate(value, how, parses).Some? ==> DeserializeOrCreate(value, how, parses).value.id == ParseULong(value).value
  {
  }

  /** A message of a configuration channel. `contentParses` says whether the content
      deserialises as the JSON object its list channel expects. `sectionMatch` is what
      the information channel's section pattern captures from the content (section
      name and JSON data), or None when it does not match. */
  datatype ConfigMessage = ConfigMessage(id: Snowflake, content: string, isUser: bool,
                                         channelMentions: seq<Snowflake>, userMentions: seq<Snowflake>,
                                         contentParses: bool, sectionMatch: Option<SectionMatch>)

  /** The captured section name and JSON data; `parses` says whether the data
      deserialises as the options type of that section. */
  datatype SectionMatch = SectionMatch(section: string, data: string, parses: bool)

  /** `FirstOrDefault()` of a list of ids. */
  function FirstOrZero(ids: seq<Snowflake>): Snowflake { if ids == [] then 0 else ids[0] }

  /** A bot-channels message: a plain ulong, else the first mentioned channel when it is
      not 0, else DeserializeOrCreate with `ulong.Parse`. */
  function BotChannelItem(m: ConfigMessage): Option<Entry> {
    if ParseULong(m.content).Some? then Some(Numbered(ParseULong(m.content).value))
    else if FirstOrZero(m.channelMentions) != 0 then Some(Numbered(FirstOrZero(m.channelMentions)))
    else DeserializeOrCreate(m.content, ParseId, m.contentParses)
  }

  /** The order a bot-channels message is read in; the last step parses the same text
      that failed to parse at the first, so it throws unless the text is JSON. */
  lemma BotChannelItemSpec(m: ConfigMessage)
    ensures ParseULong(m.content).Some? ==> BotChannelItem(m) == Some(Numbered(ParseULong(m.content).value))
    ensures ParseULong(m.content).None? && FirstOrZero(m.channelMentions) != 0 ==>
              BotChannelItem(m) == Some(Numbered(m.channelMentions[0]))
    ensures ParseULong(m.content).None? && FirstOrZero(m.channelMentions) == 0 ==>
              BotChannelItem(m) == (if StartsWith(m.content, "{") && m.contentParses then Some(Json(m.content)) else None)
  {
  }

  /** A wishlist-users message as written: a mention adds an item with `Id = id`, the
      variable the failed TryParse left at 0. */
  function UserItemAsWritten(m: ConfigMessage): Option<Entry> {
    if ParseULong(m.content).Some? then Some(Numbered(ParseULong(m.content).value))
    else if FirstOrZero(m.userMentions) != 0 then Some(Numbered(0))
    else DeserializeOrCreate(m.content, ParseId, m.contentParses)
  }

  /** A wishlist-users message, with the mentioned user as the item's id. */
  function UserItem(m: ConfigMessage): Option<Entry> {
    if ParseULong(m.content).Some? then Some(Numbered(ParseULong(m.content).value))
    else if FirstOrZero(m.userMentions) != 0 then Some(Numbered(FirstOrZero(m.userMentions)))
    else DeserializeOrCreate(m.content, ParseId, m.contentParses)
  }

  /** The two readings differ exactly on a mention that is not a plain number: the
      written one stores user 0 instead of the mentioned user. */
  lemma UserItemMentionLost(m: ConfigMessage)
    requires ParseULong(m.content).None? && m.userMentions != [] && m.userMentions[0] != 0
    ensures UserItemAsWritten(m) == Some(Numbered(0))
    ensures UserItem(m) == Some(Numbered(m.userMentions[0]))
  {
  }

  /** Both readings agree on every other message. */
  lemma UserItemAgrees(m: ConfigMessage)
    requires ParseULong(m.content).Some? || FirstOrZero(m.userMentions) == 0
    ensures UserItemAsWritten(m) == UserItem(m)
  {
  }

  /** A mention such as "<@42>" is not a plain number. */
  lemma MentionIsNotNumber(s: string)
    requires s != [] && s[0] == '<' && s[|s| - 1] == '>'
    ensures ParseULong(s).None?
  {
    TrimByFixed(s, IsNumberWhite);
  }

  /** The message "<@42>" mentioning user 42 becomes an item for user 0. */
  lemma UserMentionExample()
    ensures var m := ConfigMessage(7, "<@42>", true, [], [42], true, None);
            UserItemAsWritten(m) == Some(Numbered(0)) && UserItem(m) == Some(Numbered(42))
  {
    var m := ConfigMessage(7, "<@42>", true, [], [42], true, None);
    MentionIsNotNumber(m.content);
    UserItemMentionLost(m);
  }

  // ------------------------------------------------------------ list channels

  /** The list channels and the items each reads. */
  datatype ListKind = Characters | Anime | BotChannels | Replies | Users

  function ReadItem(k: ListKind, m: ConfigMessage): Option<Entry> {
    match k
    case Characters => DeserializeOrCreate(m.content, SetName, m.contentParses)
    case Anime => DeserializeOrCreate(m.content, SetName, m.contentParses)
    case BotChannels => BotChannelItem(m)
    case Replies => DeserializeOrCreate(m.content, SetContent, m.contentParses)
    case Users => UserItem(m)
  }

  /** The items of a list channel, in message order: messages that are not user messages
      are skipped (EnumerateMessagesAsync yields only those), and the first item that
      throws aborts the list (None). */
  function Items(k: ListKind, ms: seq<ConfigMessage>): Option<seq<Entry>>
    decreases |ms|
  {
    if ms == [] then Some([])
    else
      var n := |ms| - 1;
      AddItem(Items(k, ms[..n]), k, ms[n])
  }

  /** One more message: `Items.Add` of its item. */
  function AddItem(prior: Option<seq<Entry>>, k: ListKind, m: ConfigMessage): Option<seq<Entry>> {
    if prior.None? then None
    else if !m.isUser then prior
    else
      var e := ReadItem(k, m);
      if e.None? then None else Some(prior.value + [e.value])
  }

  /** The user messages, in order. */
  function UserMessages(ms: seq<ConfigMessage>): (r: seq<ConfigMessage>)
    ensures forall u :: u in r ==> u.isUser && u in ms
    ensures forall m :: m in ms && m.isUser ==> m in r
    decreases |ms|
  {
    if ms == [] then []
    else
      var n := |ms| - 1;
      assert forall m :: m in ms ==> m in ms[..n] || m == ms[n];
      UserMessages(ms[..n]) + (if ms[n].isUser then [ms[n]] else [])
  }

  lemma AddItemSnoc(k: ListKind, ms: seq<ConfigMessage>, m: ConfigMessage)
    ensures Items(k, ms + [m]) == AddItem(Items(k, ms), k, m)
    ensures UserMessages(ms + [m]) == UserMessages(ms) + (if m.isUser then [m] else [])
  {
    assert (ms + [m])[..|ms|] == ms;
  }

  /** A message whose item throws. */
  predicate Throws(k: ListKind, m: ConfigMessage) { m.isUser && ReadItem(k, m).None? }

  lemma AddItemNone(prior: Option<seq<Entry>>, k: ListKind, m: ConfigMessage)
    ensures AddItem(prior, k, m).None? <==> prior.None? || Throws(k, m)
  {
  }

  /** A list fails exactly when some user message's item throws. */
  lemma ItemsFail(k: ListKind, ms: seq<ConfigMessage>)
    ensures Items(k, ms).None? <==> exists j :: 0 <= j < |ms| && Throws(k, ms[j])
  {
    if Items(k, ms).None? {
      var j := FailingItem(k, ms);
    } else {
      forall j | 0 <= j < |ms|
        ensures !Throws(k, ms[j])
      {
        if Throws(k, ms[j]) {
          ThrowingItemFails(k, ms, j);
        }
      }
    }
  }

  /** A failed list has a message whose item throws. */
  lemma {:induction false} FailingItem(k: ListKind, ms: seq<ConfigMessage>) returns (j: nat)
    requires Items(k, ms).None?
    ensures j < |ms| && Throws(k, ms[j])
    decreases |ms|
  {
    var n := |ms| - 1;
    AddItemNone(Items(k, ms[..n]), k, ms[n]);
    if Throws(k, ms[n]) {
      j := n;
    } else {
      j := FailingItem(k, ms[..n]);
      assert ms[..n][j] == ms[j];
    }
  }

  /** A message whose item throws fails the list. */
  lemma ThrowingItemFails(k: ListKind, ms: seq<ConfigMessage>, j: nat)
    requires j < |ms| && Throws(k, ms[j])
    ensures Items(k, ms).None?
  {
    assert ms[..j + 1][..j] == ms[..j];
    AddItemNone(Items(k, ms[..j]), k, ms[j]);
    LaterItemsFail(k, ms, j + 1);
  }

  /** Otherwise it holds one item per user message, in order: the item that message reads. */
  lemma {:induction false} ItemsValue(k: ListKind, ms: seq<ConfigMessage>)
    requires Items(k, ms).Some?
    ensures |Items(k, ms).value| == |UserMessages(ms)|
    ensures forall j :: 0 <= j < |UserMessages(ms)| ==> ReadItem(k, UserMessages(ms)[j]) == Some(Items(k, ms).value[j])
    decreases |ms|
  {
    if ms != [] {
      var n := |ms| - 1;
      ItemsValue(k, ms[..n]);
    }
  }

  /** The loop that fills a list channel's items. */
  method CollectItems(k: ListKind, ms: seq<ConfigMessage>) returns (items: Option<seq<Entry>>)
    ensures items == Items(k, ms)
  {
    var list: seq<Entry> := [];
    for i := 0 to |ms|
      invariant Items(k, ms[..i]) == Some(list)
    {
      assert ms[..i + 1] == ms[..i] + [ms[i]];
      AddItemSnoc(k, ms[..i], ms[i]);
      if !ms[i].isUser {
        continue;
      }
      var e := ReadItem(k, ms[i]);
      if e.None? {
        LaterItemsFail(k, ms, i + 1);
        return None;
      }
      list := list + [e.value];
    }
    assert ms[..|ms|] == ms;
    items := Some(list);
  }

  /** A name or reply message that starts with '{' but does not deserialise throws, and
      with it the whole list. */
  lemma MalformedJsonThrows(k: ListKind, ms: seq<ConfigMessage>, j: nat)
    requires k.Characters? || k.Anime? || k.Replies?
    requires j < |ms| && ms[j].isUser && StartsWith(ms[j].content, "{") && !ms[j].contentParses
    ensures Throws(k, ms[j]) && Items(k, ms).None?
  {
    ThrowingItemFails(k, ms, j);
  }

  /** The message "{oops" throws in every list channel. */
  lemma MalformedJsonExample(k: ListKind)
    ensures Throws(k, ConfigMessage(7, "{oops", true, [], [], false, None))
  {
    var m := ConfigMessage(7, "{oops", true, [], [], false, None);
    TrimByFixed(m.content, IsNumberWhite);
  }

  /** Once a prefix of the messages fails, so does the whole list. */
  lemma {:induction false} LaterItemsFail(k: ListKind, ms: seq<ConfigMessage>, i: nat)
    requires i <= |ms| && Items(k, ms[..i]).None?
    ensures Items(k, ms).None?
    decreases |ms| - i
  {
    if i < |ms| {
      assert ms[..i + 1][..i] == ms[..i];
      LaterItemsFail(k, ms, i + 1);
    } else {
      assert ms[..i] == ms;
    }
  }

  // ------------------------------------------------------------ sections

  /** The section names the options classes declare (their `Section` constants). */
  datatype SectionNames = SectionNames(general: string, claiming: string, rolling: string,
                                       characters: string, anime: string, botChannels: string,
                                       replies: string, users: string)

  datatype OptionsKind = General | Claiming | Rolling

  /** The `section switch`: case-sensitive, and None where it throws NotSupportedException. */
  function OptionsKindOf(names: SectionNames, section: string): Option<OptionsKind> {
    if section == names.general then Some(General)
    else if section == names.claiming then Some(Claiming)
    else if section == names.rolling then Some(Rolling)
    else None
  }

  /** What a section provider holds: an options object read from JSON, or a list. */
  datatype Data = Options(kind: OptionsKind, json: string) | List(list: ListKind, items: seq<Entry>)

  const Miscellaneous: string := "miscellaneous"

  /** `section.Equals("miscellaneous", OrdinalIgnoreCase)`. */
  predicate IsMiscellaneous(section: string) { ToLower(section) == Miscellaneous }

  /** The table's keys compare ignoring case, so a section is stored under its
      lower-cased name. */
  function Key(section: string): string { ToLower(section) }

  /** The state the information channel's loop threads: the provider table, the
      messages deleted so far, and whether a section has thrown. */
  datatype Info = Info(providers: map<string, Data>, deleted: seq<Snowflake>, failed: bool)

  /** One message of the information channel. */
  function InfoStep(names: SectionNames, r: Info, m: ConfigMessage): Info {
    if r.failed || !m.isUser || m.sectionMatch.None? then r
    else
      var section := m.sectionMatch.value.section;
      if IsMiscellaneous(section) then r.(deleted := r.deleted + [m.id])
      else
        var kind := OptionsKindOf(names, section);
        if kind.None? || !m.sectionMatch.value.parses then r.(failed := true)
        else r.(providers := r.providers[Key(section) := Options(kind.value, m.sectionMatch.value.data)])
  }

  function InfoFold(names: SectionNames, r: Info, ms: seq<ConfigMessage>): Info
    decreases |ms|
  {
    if ms == [] then r
    else
      var n := |ms| - 1;
      InfoStep(names, InfoFold(names, r, ms[..n]), ms[n])
  }

  /** A message the switch throws on: a matched section that is neither
      "miscellaneous" nor a known options section. */
  predicate Unknown(names: SectionNames, m: ConfigMessage) {
    m.isUser && m.sectionMatch.Some? && !IsMiscellaneous(m.sectionMatch.value.section)
    && OptionsKindOf(names, m.sectionMatch.value.section).None?
  }

  /** A message whose known options section has data DeserializeObject rejects. */
  predicate BadData(names: SectionNames, m: ConfigMessage) {
    m.isUser && m.sectionMatch.Some? && !IsMiscellaneous(m.sectionMatch.value.section)
    && OptionsKindOf(names, m.sectionMatch.value.section).Some? && !m.sectionMatch.value.parses
  }

  /** A message the information loop throws on. */
  predicate SectionThrows(names: SectionNames, m: ConfigMessage) { Unknown(names, m) || BadData(names, m) }

  /** The loop throws exactly when some message has an unknown section or bad data. */
  lemma {:induction false} InfoFails(names: SectionNames, r: Info, ms: seq<ConfigMessage>)
    requires !r.failed
    ensures InfoFold(names, r, ms).failed <==> exists j :: 0 <= j < |ms| && SectionThrows(names, ms[j])
    decreases |ms|
  {
    if ms != [] {
      var n := |ms| - 1;
      InfoFails(names, r, ms[..n]);
      assert forall j :: 0 <= j < n ==> ms[..n][j] == ms[j];
    }
  }

  /** The first throwing section stops the loop, and what the messages before it wrote
      and deleted stays. */
  lemma {:induction false} InfoStopsAt(names: SectionNames, r: Info, ms: seq<ConfigMessage>, k: nat)
    requires k < |ms| && SectionThrows(names, ms[k])
    requires !InfoFold(names, r, ms[..k]).failed
    ensures InfoFold(names, r, ms) == InfoFold(names, r, ms[..k]).(failed := true)
    decreases |ms|
  {
    var n := |ms| - 1;
    if k < n {
      assert ms[..n][..k] == ms[..k];
      InfoStopsAt(names, r, ms[..n], k);
    } else {
      assert ms[..n] == ms[..k];
    }
  }

  /** Only the three options sections are written: a key the table did not have before
      is the lower-cased name of General, Claiming or Rolling, never of
      "miscellaneous"; a deleted message is a "miscellaneous" one. */
  lemma {:induction false} InfoWrites(names: SectionNames, r: Info, ms: seq<ConfigMessage>)
    ensures forall key :: key in InfoFold(names, r, ms).providers && key !in r.providers ==>
              key == Key(names.general) || key == Key(names.claiming) || key == Key(names.rolling)
    ensures forall id :: id in InfoFold(names, r, ms).deleted && id !in r.deleted ==>
              exists j :: 0 <= j < |ms| && ms[j].id == id && ms[j].sectionMatch.Some?
                          && IsMiscellaneous(ms[j].sectionMatch.value.section)
    decreases |ms|
  {
    if ms != [] {
      var n := |ms| - 1;
      InfoWrites(names, r, ms[..n]);
      assert forall j :: 0 <= j < n ==> ms[..n][j] == ms[j];
    }
  }

  // ------------------------------------------------------------ the provider

  /** A channel whose change triggers a reload: whether it is a message channel, the
      guild it belongs to (None for a channel outside any guild), and its messages in
      the order the client lists them. */
  datatype Channel = Channel(name: string, isMessageChannel: bool, guildId: Option<Snowflake>,
                             messages: seq<ConfigMessage>)

  /** `_loadMessages`: the number of messages EnumerateMessagesAsync asks for. */
  const LoadLimit: nat := 1000

  /** The messages EnumerateMessagesAsync reads: the first `LoadLimit` of the listing,
      or all of it when it is shorter. */
  function Loaded(ms: seq<ConfigMessage>): (r: seq<ConfigMessage>)
    ensures |r| == if |ms| < LoadLimit then |ms| else LoadLimit
    ensures forall j :: 0 <= j < |r| ==> r[j] == ms[j]
  {
    if |ms| <= LoadLimit then ms else ms[..LoadLimit]
  }

  /** How ReloadAsync ends: the guard ignored the channel, the switch completed (valid
      when the channel name was known), or an exception was caught. */
  datatype Outcome = Ignored | Reloaded(valid: bool) | Failed

  const Information: string := "information"

  /** The list channels by name. */
  function ListKindOf(name: string): Option<ListKind> {
    if name == "wished-characters" then Some(Characters)
    else if name == "wished-anime" then Some(Anime)
    else if name == "bot-channels" then Some(BotChannels)
    else if name == "claim-replies" then Some(Replies)
    else if name == "wishlist-users" then Some(Users)
    else None
  }

  /** The section a list is stored under. */
  function ListSection(names: SectionNames, k: ListKind): string {
    match k
    case Characters => names.characters
    case Anime => names.anime
    case BotChannels => names.botChannels
    case Replies => names.replies
    case Users => names.users
  }

  /** The provider's state: the section providers by lower-cased name, the messages
      deleted from the information channel, and how often the reload token fired. */
  datatype State = State(providers: map<string, Data>, deleted: seq<Snowflake>, reloads: nat)

  /** ReloadAsync on a channel, as a function of the state before it. */
  function AfterReload(names: SectionNames, guildId: Snowflake, st: State, ch: Channel): (State, Outcome) {
    if !ch.isMessageChannel || ch.guildId != Some(guildId) then (st, Ignored)
    else if ch.name == Information then
      var r := InfoFold(names, Info(st.providers, st.deleted, false), Loaded(ch.messages));
      if r.failed then (State(r.providers, r.deleted, st.reloads), Failed)
      else (State(r.providers, r.deleted, st.reloads + 1), Reloaded(true))
    else if ListKindOf(ch.name).Some? then
      var k := ListKindOf(ch.name).value;
      var items := Items(k, Loaded(ch.messages));
      if items.None? then (st, Failed)
      else (st.(providers := st.providers[Key(ListSection(names, k)) := List(k, items.value)],
                reloads := st.reloads + 1), Reloaded(true))
    else (st.(reloads := st.reloads + 1), Reloaded(false))
  }

  /** A channel of another guild, or one that is not a message channel, changes nothing. */
  lemma ReloadIgnores(names: SectionNames, guildId: Snowflake, st: State, ch: Channel)
    ensures AfterReload(names, guildId, st, ch).1 == Ignored <==> !ch.isMessageChannel || ch.guildId != Some(guildId)
    ensures AfterReload(names, guildId, st, ch).1 == Ignored ==> AfterReload(names, guildId, st, ch).0 == st
  {
  }

  /** A list channel replaces its section's list with its items, unless an item throws,
      in which case nothing changes and the token does not fire; nothing else changes. */
  lemma ReloadList(names: SectionNames, guildId: Snowflake, st: State, ch: Channel, k: ListKind)
    requires ch.isMessageChannel && ch.guildId == Some(guildId) && ListKindOf(ch.name) == Some(k)
    ensures var (st', outcome) := AfterReload(names, guildId, st, ch);
            (outcome == Failed <==> exists j :: 0 <= j < |Loaded(ch.messages)| && Throws(k, ch.messages[j]))
            && (outcome == Failed ==> st' == st)
            && (outcome != Failed ==>
                  outcome == Reloaded(true) && st'.deleted == st.deleted && st'.reloads == st.reloads + 1
                  && st'.providers.Keys == st.providers.Keys + {Key(ListSection(names, k))}
                  && st'.providers[Key(ListSection(names, k))].List?
                  && |st'.providers[Key(ListSection(names, k))].items| == |UserMessages(Loaded(ch.messages))|
                  && (forall key :: key in st.providers && key != Key(ListSection(names, k)) ==>
                        st'.providers[key] == st.providers[key]))
  {
    assert ch.name != Information;
    ItemsFail(k, Loaded(ch.messages));
    if Items(k, Loaded(ch.messages)).Some? {
      ItemsValue(k, Loaded(ch.messages));
    }
  }

  /** The information channel throws exactly on an unknown section or data that does
      not deserialise; then the sections
      and deletions before it stay and the token does not fire. Only options sections
      are added, and only "miscellaneous" messages are deleted. */
  lemma ReloadInformation(names: SectionNames, guildId: Snowflake, st: State, ch: Channel)
    requires ch.isMessageChannel && ch.guildId == Some(guildId) && ch.name == Information
    ensures var (st', outcome) := AfterReload(names, guildId, st, ch);
            (outcome == Failed <==> exists j :: 0 <= j < |Loaded(ch.messages)| && SectionThrows(names, ch.messages[j]))
            && (outcome != Failed ==> outcome == Reloaded(true) && st'.reloads == st.reloads + 1)
            && (outcome == Failed ==> st'.reloads == st.reloads)
            && (forall key :: key in st'.providers && key !in st.providers ==>
                  key == Key(names.general) || key == Key(names.claiming) || key == Key(names.rolling))
            && (forall id :: id in st'.deleted && id !in st.deleted ==>
                  exists j :: 0 <= j < |Loaded(ch.messages)| && ch.messages[j].id == id && ch.messages[j].sectionMatch.Some?
                              && IsMiscellaneous(ch.messages[j].sectionMatch.value.section))
  {
    var r0 := Info(st.providers, st.deleted, false);
    InfoFails(names, r0, Loaded(ch.messages));
    InfoWrites(names, r0, Loaded(ch.messages));
  }

  /** Any other channel of the guild: the switch's default, which fires the token and
      changes nothing else. */
  lemma ReloadOther(names: SectionNames, guildId: Snowflake, st: State, ch: Channel)
    requires ch.isMessageChannel && ch.guildId == Some(guildId)
    requires ch.name != Information && ListKindOf(ch.name).None?
    ensures AfterReload(names, guildId, st, ch) == (st.(reloads := st.reloads + 1), Reloaded(false))
  {
  }

  /** No reload removes a section. */
  lemma {:induction false} InfoKeepsKeys(names: SectionNames, r: Info, ms: seq<ConfigMessage>)
    ensures r.providers.Keys <= InfoFold(names, r, ms).providers.Keys
    ensures r.deleted <= InfoFold(names, r, ms).deleted
    decreases |ms|
  {
    if ms != [] {
      InfoKeepsKeys(names, r, ms[..|ms| - 1]);
    }
  }

  lemma ReloadKeepsSections(names: SectionNames, guildId: Snowflake, st: State, ch: Channel)
    ensures st.providers.Keys <= AfterReload(names, guildId, st, ch).0.providers.Keys
  {
    if ch.isMessageChannel && ch.guildId == Some(guildId) && ch.name == Information {
      InfoKeepsKeys(names, Info(st.providers, st.deleted, false), Loaded(ch.messages));
    }
  }

  /** TryGet's answer: the provider the section names and the rest of the key, which
      that provider looks up, or None where TryGet returns false directly. */
  function Lookup(providers: map<string, Data>, key: string): Option<(Data, string)> {
    var parts := SplitFirst(key, ':');
    if |parts| == 2 && Key(parts[0]) in providers then Some((providers[Key(parts[0])], parts[1])) else None
  }

  /** The section is the text before the first ':', compared ignoring case; a key
      without ':' or naming no section gives None. */
  lemma LookupSpec(providers: map<string, Data>, section: string, rest: string)
    requires forall k :: 0 <= k < |section| ==> section[k] != ':'
    ensures Lookup(providers, section + [':'] + rest)
            == if Key(section) in providers then Some((providers[Key(section)], rest)) else None
  {
    SplitFirstAt(section, ':', rest);
  }

  lemma LookupNoColon(providers: map<string, Data>, key: string)
    requires forall k :: 0 <= k < |key| ==> key[k] != ':'
    ensures Lookup(providers, key) == None
  {
  }

  /** Two spellings of a section that differ only in case find the same provider. */
  lemma LookupIgnoresCase(providers: map<string, Data>, a: string, b: string, rest: string)
    requires forall k :: 0 <= k < |a| ==> a[k] != ':'
    requires forall k :: 0 <= k < |b| ==> b[k] != ':'
    requires ToLower(a) == ToLower(b)
    ensures Lookup(providers, a + [':'] + rest) == Lookup(providers, b + [':'] + rest)
  {
    LookupSpec(providers, a, rest);
    LookupSpec(providers, b, rest);
  }

  class Provider {
    const guildId: Snowflake
    const names: SectionNames
    var providers: map<string, Data>
    var deleted: seq<Snowflake>
    var reloads: nat

    constructor(guildId: Snowflake, names: SectionNames)
      ensures this.guildId == guildId && this.names == names
      ensures providers == map[] && deleted == [] && reloads == 0
    {
      this.guildId := guildId;
      this.names := names;
      providers := map[];
      deleted := [];
      reloads := 0;
    }

    function Snapshot(): State
      reads this
    {
      State(providers, deleted, reloads)
    }

    /** ReloadAsync. */
    method Reload(ch: Channel) returns (outcome: Outcome)
      modifies this
      ensures (Snapshot(), outcome) == AfterReload(names, guildId, old(Snapshot()), ch)
    {
      if !ch.isMessageChannel || ch.guildId != Some(guildId) {
        return Ignored;
      }
      if ch.name == Information {
        var failed := ReadInformation(Loaded(ch.messages));
        if failed {
          return Failed;
        }
        reloads := reloads + 1;
        return Reloaded(true);
      }
      var kind := ListKindOf(ch.name);
      if kind.Some? {
        var items := CollectItems(kind.value, Loaded(ch.messages));
        if items.None? {
          return Failed;
        }
        providers := providers[Key(ListSection(names, kind.value)) := List(kind.value, items.value)];
        reloads := reloads + 1;
        return Reloaded(true);
      }
      reloads := reloads + 1;
      outcome := Reloaded(false);
    }

    /** The information channel's loop, writing sections and deleting messages as it
      goes, up to the first section that throws. */
    method ReadInformation(ms: seq<ConfigMessage>) returns (failed: bool)
      modifies this
      ensures Info(providers, deleted, failed) == InfoFold(names, Info(old(providers), old(deleted), false), ms)
      ensures reloads == old(reloads)
    {
      ghost var r0 := Info(providers, deleted, false);
      for i := 0 to |ms|
        invariant Info(providers, deleted, false) == InfoFold(names, r0, ms[..i])
        invariant reloads == old(reloads)
      {
        assert ms[..i + 1][..i] == ms[..i];
        var stop := ReadSection(ms[i]);
        if stop {
          InfoStopsAt(names, r0, ms, i);
          return true;
        }
      }
      assert ms[..|ms|] == ms;
      failed := false;
    }

    /** One message of the information channel; true when it throws: its section is
        unknown or its data does not deserialise. */
    method ReadSection(m: ConfigMessage) returns (thrown: bool)
      modifies this
      ensures thrown == SectionThrows(names, m)
      ensures InfoStep(names, old(Info(providers, deleted, false)), m)
              == Info(providers, deleted, thrown)
      ensures reloads == old(reloads)
    {
      if !m.isUser || m.sectionMatch.None? {
        return false;
      }
      var section := m.sectionMatch.value.section;
      if IsMiscellaneous(section) {
        deleted := deleted + [m.id];
        return false;
      }
      var kind := OptionsKindOf(names, section);
      if kind.None? || !m.sectionMatch.value.parses {
        return true;
      }
      providers := providers[Key(section) := Options(kind.value, m.sectionMatch.value.data)];
      thrown := false;
    }

    /** TryGet: the provider that answers the key, and the key it is asked. */
    function TryGet(key: string): (r: Option<(Data, string)>)
      reads this
      ensures r.Some? ==> exists section, rest :: key == section + [':'] + rest && Key(section) in providers
                                                  && r.value == (providers[Key(section)], rest)
    {
      Lookup(providers, key)
    }
  }
}
