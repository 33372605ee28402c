/** The self-command listener: messages the account itself sends that start with "/"
    are split into a command name and its arguments, looked up in a fixed command
    table, and run against the wishlists, the roll channels, the roll command and the
    presence status. */
module CommandListener {
  import opened Base
  import opened Strings
  import ConfigManager

  // ------------------------------------------------------------------ tokenizing

  /** A token of a command line: non-empty and without a space. */
  predicate IsToken(t: string) {
    t != [] && forall i :: 0 <= i < |t| ==> t[i] != ' '
  }

  /** What HandleCommandMessage reads from a message text. */
  datatype Parsed =
    | NotCommand                              // does not start with "/"
    | NoTokens                                // `parts[0]` throws: nothing after the "/"
    | Command(name: string, args: seq<string>)

  /** Drop the "/", split on spaces discarding empty entries; the first piece is the
      command and the rest are its arguments. */
  function Parse(content: string): (r: Parsed)
    ensures r.NotCommand? <==> !StartsWith(content, "/")
    ensures r.Command? ==> IsToken(r.name) && forall k :: 0 <= k < |r.args| ==> IsToken(r.args[k])
  {
    if !StartsWith(content, "/") then NotCommand
    else
      var parts := SplitNonEmpty(content[1..], {' '});
      if parts == [] then NoTokens else Command(parts[0], parts[1..])
  }

  /** Splitting a line made only of spaces leaves no non-empty piece. */
  lemma {:induction false} SpacesSplitToNothing(s: string)
    requires forall i :: 0 <= i < |s| ==> s[i] == ' '
    ensures SplitNonEmpty(s, {' '}) == []
    decreases |s|
  {
    if s == [] {
      SplitAllNoSeparator(s, {' '});
    } else {
      SpacesSplitToNothing(s[1..]);
      SplitAllConcat([], ' ', s[1..], {' '});
      assert s == [] + [' '] + s[1..];
      SplitAllNoSeparator([], {' '});
      RemoveEmptyConcat([[]], SplitAll(s[1..], {' '}));
    }
  }

  /** A "/" followed only by spaces has no command token, so `parts[0]` throws. */
  lemma SlashAloneHasNoTokens(s: string)
    requires forall i :: 0 <= i < |s| ==> s[i] == ' '
    ensures Parse("/" + s) == NoTokens
  {
    assert ("/" + s)[1..] == s;
    SpacesSplitToNothing(s);
  }

  /** Splitting tokens joined by single spaces gives the tokens back. */
  lemma SplitJoinedTokens(ts: seq<string>)
    requires ts != [] && forall k :: 0 <= k < |ts| ==> IsToken(ts[k])
    ensures SplitNonEmpty(Join(" ", ts), {' '}) == ts
  {
    SplitAllJoin(ts, ' ');
    ConfigManager.RemoveEmptyNone(ts);
  }

  /** A command line written as "/" and tokens separated by single spaces parses to
      its first token as the command and the others as the arguments. */
  lemma ParseJoin(ts: seq<string>)
    requires ts != [] && forall k :: 0 <= k < |ts| ==> IsToken(ts[k])
    ensures Parse("/" + Join(" ", ts)) == Command(ts[0], ts[1..])
  {
    assert ("/" + Join(" ", ts))[1..] == Join(" ", ts);
    SplitJoinedTokens(ts);
  }

  /** The string parameter of a command: the arguments joined by single spaces, or
      null when there are none. */
  function Argument(args: seq<string>): (r: Option<string>)
    ensures r.None? <==> args == []
  {
    if args == [] then None else Some(Join(" ", args))
  }

  /** Re-splitting the joined argument gives the argument tokens back, so the string a
      command receives loses only the runs of extra spaces between tokens. */
  lemma ArgumentRoundTrip(args: seq<string>)
    requires args != [] && forall k :: 0 <= k < |args| ==> IsToken(args[k])
    ensures Argument(args).Some? && SplitNonEmpty(Argument(args).value, {' '}) == args
  {
    SplitJoinedTokens(args);
  }

  // --------------------------------------------------------------- command table

  datatype Kind =
    | Wishlist | Wish | Unwish | WishAnime | UnwishAnime | WishClear
    | ClaimDelay | RollInterval | Roll | Marry | Status

  /** The name each command method is registered under. */
  function Name(k: Kind): (r: string)
    ensures IsToken(r)
  {
    match k
    case Wishlist => "wishlist"
    case Wish => "wish"
    case Unwish => "unwish"
    case WishAnime => "wishani"
    case UnwishAnime => "unwishani"
    case WishClear => "wishclear"
    case ClaimDelay => "claimdelay"
    case RollInterval => "rollinterval"
    case Roll => "roll"
    case Marry => "marry"
    case Status => "status"
  }

  /** The dispatch table: an ordinal (case-sensitive) dictionary from name to command. */
  const Commands: map<string, Kind> := map[
    "wishlist" := Wishlist, "wish" := Wish, "unwish" := Unwish,
    "wishani" := WishAnime, "unwishani" := UnwishAnime, "wishclear" := WishClear,
    "claimdelay" := ClaimDelay, "rollinterval" := RollInterval, "roll" := Roll,
    "marry" := Marry, "status" := Status]

  function Lookup(name: string): (r: Option<Kind>)
    ensures r.Some? <==> name in Commands
  {
    if name in Commands then Some(Commands[name]) else None
  }

  /** The table finds every command under its registered name and under no other. */
  lemma LookupSpec(name: string, k: Kind)
    ensures Lookup(name) == Some(k) <==> name == Name(k)
  {
    if name == Name(k) {
      assert name in Commands;
    }
  }

  /** Command names are matched exactly: a capitalised name is an unknown command. */
  lemma LookupCaseSensitive()
    ensures Lookup("wish") == Some(Wish)
    ensures Lookup("Wish") == None
    ensures Lookup("WISHCLEAR") == None
  {
    assert "Wish" !in Commands by {
      LookupSpec("Wish", Wish);
    }
    assert "WISHCLEAR" !in Commands by {
      LookupSpec("WISHCLEAR", WishClear);
    }
  }

  // ---------------------------------------------------------------- the mappings

  /** Which wishlists `wishclear` clears: both for a null or empty category, otherwise
      the one the lower-cased category names, if any. */
  datatype Cleared = Cleared(characters: bool, anime: bool)

  function ClearTargets(category: Option<string>): Cleared {
    if category.None? || category.value == [] then Cleared(true, true)
    else
      var c := ToLower(category.value);
      if c == "characters" then Cleared(true, false)
      else if c == "anime" then Cleared(false, true)
      else Cleared(false, false)
  }

  /** A named category clears at most one list, the one its lower-case form names,
      and categories that differ only in case clear the same lists. */
  lemma ClearTargetsSpec(category: string, other: string)
    ensures category != [] ==>
              !(ClearTargets(Some(category)).characters && ClearTargets(Some(category)).anime)
              && (ClearTargets(Some(category)).characters <==> ToLower(category) == "characters")
              && (ClearTargets(Some(category)).anime <==> ToLower(category) == "anime")
    ensures EqualsIgnoreCase(category, other) ==> ClearTargets(Some(category)) == ClearTargets(Some(other))
  {
  }

  /** The roll command `marry` stores: "waifu" and "husbando" in any case become
      "w" and "h"; anything else is stored as given. */
  function MarryCommand(command: string): string {
    var c := ToLower(command);
    if c == "waifu" then "w" else if c == "husbando" then "h" else command
  }

  /** The stored command is the given one unless its lower-case form is "waifu" or
      "husbando"; so spellings of those two that differ only in case store the same
      command, while any other command keeps its own case. */
  lemma MarryCommandSpec(command: string, other: string)
    ensures MarryCommand(command) == command
            || (ToLower(command) == "waifu" && MarryCommand(command) == "w")
            || (ToLower(command) == "husbando" && MarryCommand(command) == "h")
    ensures EqualsIgnoreCase(command, other) && MarryCommand(command) != command ==>
              MarryCommand(other) == MarryCommand(command)
  {
  }

  /** Marrying with the stored command again stores the same command. */
  lemma MarryCommandIdempotent(command: string)
    ensures MarryCommand(MarryCommand(command)) == MarryCommand(command)
  {
    var c := MarryCommand(command);
    if c == command {
    } else {
      assert ToLower(c) != "waifu" && ToLower(c) != "husbando" by {
        assert |ToLower(c)| == 1;
      }
    }
  }

  /** The mapping does not lower-case what it keeps. */
  lemma MarryCommandExamples()
    ensures MarryCommand("WaiFu") == "w"
    ensures MarryCommand("WA") == "WA"
  {
    assert ToLower("WaiFu") == [LowerChar('W'), LowerChar('a'), LowerChar('i'), LowerChar('F'), LowerChar('u')];
    assert |ToLower("WA")| == 2;
  }

  datatype UserStatus = Online | Idle | DoNotDisturb | Invisible

  /** The status `status` sets, or None when the word is not known and the command
      returns without setting one. */
  function StatusOf(word: string): Option<UserStatus> {
    var w := ToLower(word);
    if w == "on" || w == "online" then Some(Online)
    else if w == "i" || w == "idle" then Some(Idle)
    else if w == "d" || w == "dnd" || w == "do not disturb" then Some(DoNotDisturb)
    else if w == "off" || w == "offline" then Some(Invisible)
    else None
  }

  /** The lower-case spellings each status accepts. */
  function Spellings(st: UserStatus): (r: set<string>)
    ensures r != {}
  {
    match st
    case Online => {"on", "online"}
    case Idle => {"i", "idle"}
    case DoNotDisturb => {"d", "dnd", "do not disturb"}
    case Invisible => {"off", "offline"}
  }

  /** A word sets a status exactly when its lower-case form is one of that status's
      spellings, and sets none when it is a spelling of no status. */
  lemma StatusOfSpec(word: string, st: UserStatus)
    ensures StatusOf(word) == Some(st) <==> ToLower(word) in Spellings(st)
    ensures StatusOf(word).None? <==>
              ToLower(word) !in Spellings(Online) + Spellings(Idle) + Spellings(DoNotDisturb) + Spellings(Invisible)
  {
  }

  // ------------------------------------------------------------ running commands

  /** The configuration values the commands change, and the presence last set. */
  datatype Settings = Settings(characters: set<string>, anime: set<string>,
                               rollChannels: set<Snowflake>, rollCommand: string,
                               status: Option<UserStatus>)

  predicate NeedsArgument(k: Kind) {
    k == Wish || k == Unwish || k == WishAnime || k == UnwishAnime || k == Marry || k == Status
  }

  /** One command on the settings, in the channel the command was sent in; None when
      it throws (a null string argument dereferenced by ToLowerInvariant). */
  function Execute(s: Settings, k: Kind, arg: Option<string>, channel: Snowflake): (r: Option<Settings>)
    ensures r.None? <==> NeedsArgument(k) && arg.None?
  {
    match k
    case Wishlist => Some(s)
    case ClaimDelay => Some(s)
    case RollInterval => Some(s)
    case Wish => if arg.None? then None else Some(s.(characters := s.characters + {ToLower(arg.value)}))
    case Unwish => if arg.None? then None else Some(s.(characters := s.characters - {ToLower(arg.value)}))
    case WishAnime => if arg.None? then None else Some(s.(anime := s.anime + {ToLower(arg.value)}))
    case UnwishAnime => if arg.None? then None else Some(s.(anime := s.anime - {ToLower(arg.value)}))
    case WishClear =>
      var t := ClearTargets(arg);
      Some(s.(characters := if t.characters then {} else s.characters,
              anime := if t.anime then {} else s.anime))
    case Roll =>
      if arg.Some? && ToLower(arg.value) == "disable" then Some(s.(rollChannels := s.rollChannels - {channel}))
      else Some(s.(rollChannels := s.rollChannels + {channel}))
    case Marry => if arg.None? then None else Some(s.(rollCommand := MarryCommand(arg.value)))
    case Status =>
      if arg.None? then None
      else
        var st := StatusOf(arg.value);
        if st.None? then Some(s) else Some(s.(status := st))
  }

  /** The four wishlist edits change only their own list, and in it only the
      lower-cased argument; arguments that differ only in case have the same effect. */
  lemma WishEditSpec(s: Settings, k: Kind, a: string, b: string, channel: Snowflake, x: string)
    requires k == Wish || k == Unwish || k == WishAnime || k == UnwishAnime
    requires EqualsIgnoreCase(a, b)
    ensures var r := Execute(s, k, Some(a), channel);
            r.Some? && r == Execute(s, k, Some(b), channel)
            && r.value.rollChannels == s.rollChannels && r.value.rollCommand == s.rollCommand
            && r.value.status == s.status
            && (k == Wish || k == Unwish ==> r.value.anime == s.anime)
            && (k == WishAnime || k == UnwishAnime ==> r.value.characters == s.characters)
            && (k == Wish ==> ToLower(a) in r.value.characters)
            && (k == Unwish ==> ToLower(a) !in r.value.characters)
            && (k == WishAnime ==> ToLower(a) in r.value.anime)
            && (k == UnwishAnime ==> ToLower(a) !in r.value.anime)
            && (x != ToLower(a) ==>
                  (x in r.value.characters <==> x in s.characters) && (x in r.value.anime <==> x in s.anime))
  {
  }

  /** Wishing and then unwishing a character leaves the list without the lower-cased
      name and otherwise as it was. */
  lemma WishThenUnwish(s: Settings, a: string, b: string, channel: Snowflake)
    requires EqualsIgnoreCase(a, b)
    ensures var w := Execute(s, Wish, Some(a), channel).value;
            Execute(w, Unwish, Some(b), channel).value.characters == s.characters - {ToLower(a)}
  {
  }

  /** `wishclear` empties exactly the lists ClearTargets names and keeps the rest. */
  lemma WishClearSpec(s: Settings, arg: Option<string>, channel: Snowflake)
    ensures var r := Execute(s, WishClear, arg, channel).value;
            (arg.None? ==> r.characters == {} && r.anime == {})
            && (arg.Some? && ToLower(arg.value) == "characters" ==> r.characters == {} && r.anime == s.anime)
            && (arg.Some? && ToLower(arg.value) == "anime" ==> r.anime == {} && r.characters == s.characters)
            && r.rollChannels == s.rollChannels && r.rollCommand == s.rollCommand && r.status == s.status
  {
  }

  /** `roll` adds the channel and `roll disable` removes it, no other channel and no
      other setting changes, and both can be repeated without further change. */
  lemma RollSpec(s: Settings, arg: Option<string>, channel: Snowflake)
    ensures var r := Execute(s, Roll, arg, channel).value;
            (channel in r.rollChannels <==> !(arg.Some? && ToLower(arg.value) == "disable"))
            && r.rollChannels - {channel} == s.rollChannels - {channel}
            && r.(rollChannels := s.rollChannels) == s
            && Execute(r, Roll, arg, channel).value == r
  {
  }

  /** Every command but `marry` reads its argument only through its lower-case form,
      so arguments that differ only in case have the same effect; `marry` keeps a
      command other than "waifu" and "husbando" exactly as written. */
  lemma ExecuteIgnoresCase(s: Settings, k: Kind, a: string, b: string, channel: Snowflake)
    requires EqualsIgnoreCase(a, b)
    ensures k != Marry ==> Execute(s, k, Some(a), channel) == Execute(s, k, Some(b), channel)
    ensures k == Marry && a != b && MarryCommand(a) == a ==>
              Execute(s, k, Some(a), channel) != Execute(s, k, Some(b), channel)
  {
    if k == Marry && a != b && MarryCommand(a) == a {
      MarryCommandSpec(a, b);
      MarryCommandSpec(b, a);
    }
  }

  // -------------------------------------------------------------- whole messages

  /** The part of a received message the listener reads. */
  datatype Message = Message(isUserMessage: bool, authorId: Snowflake, channelId: Snowflake, content: string)

  datatype Outcome =
    | Ignored          // not a user message, not our own, or not a command line
    | Threw            // the exception is caught and logged
    | Unknown          // no command of that name
    | Ran(kind: Kind)

  datatype Handling = Handling(outcome: Outcome, after: Settings)

  /** HandleMessageAsync and HandleCommandMessage on one message. */
  function Handle(s: Settings, m: Message, selfId: Snowflake): (r: Handling)
    ensures !r.outcome.Ran? ==> r.after == s
    ensures !m.isUserMessage || m.authorId != selfId ==> r.outcome == Ignored
  {
    if !m.isUserMessage || m.authorId != selfId then Handling(Ignored, s)
    else
      match Parse(m.content)
      case NotCommand => Handling(Ignored, s)
      case NoTokens => Handling(Threw, s)
      case Command(name, args) =>
        match Lookup(name)
        case None => Handling(Unknown, s)
        case Some(k) =>
          match Execute(s, k, Argument(args), m.channelId)
          case None => Handling(Threw, s)
          case Some(t) => Handling(Ran(k), t)
  }

  /** "/name arg1 … argn" parses to the command registered under that name. */
  lemma ParseCommandLine(k: Kind, args: seq<string>)
    requires forall j :: 0 <= j < |args| ==> IsToken(args[j])
    ensures Parse("/" + Join(" ", [Name(k)] + args)) == Command(Name(k), args)
    ensures Lookup(Name(k)) == Some(k)
  {
    var ts := [Name(k)] + args;
    assert forall j :: 0 <= j < |ts| ==> IsToken(ts[j]) by {
      forall j | 0 <= j < |ts|
        ensures IsToken(ts[j])
      {
        if j > 0 {
          assert ts[j] == args[j - 1];
        }
      }
    }
    ParseJoin(ts);
    assert ts[1..] == args;
    LookupSpec(Name(k), k);
  }

  /** Our own message "/name arg1 … argn" runs the named command with the arguments
      joined by single spaces, or with no argument when there are none. */
  lemma HandleCommandLine(s: Settings, m: Message, selfId: Snowflake, k: Kind, args: seq<string>)
    requires m.isUserMessage && m.authorId == selfId
    requires forall j :: 0 <= j < |args| ==> IsToken(args[j])
    requires m.content == "/" + Join(" ", [Name(k)] + args)
    ensures var e := Execute(s, k, Argument(args), m.channelId);
            Handle(s, m, selfId) == if e.None? then Handling(Threw, s) else Handling(Ran(k), e.value)
  {
    ParseCommandLine(k, args);
    HandleCommand(s, m, selfId, Name(k), args, k);
  }

  lemma HandleCommand(s: Settings, m: Message, selfId: Snowflake, name: string, args: seq<string>, k: Kind)
    requires m.isUserMessage && m.authorId == selfId
    requires Parse(m.content) == Command(name, args) && Lookup(name) == Some(k)
    ensures var e := Execute(s, k, Argument(args), m.channelId);
            Handle(s, m, selfId) == if e.None? then Handling(Threw, s) else Handling(Ran(k), e.value)
  {
  }

  /** CommandListener: the listener and the configuration values its commands edit. */
  class Listener {
    var characters: set<string>
    var anime: set<string>
    var rollChannels: set<Snowflake>
    var rollCommand: string
    var status: Option<UserStatus>

    constructor(characters: set<string>, anime: set<string>, rollChannels: set<Snowflake>, rollCommand: string)
      ensures Current() == Settings(characters, anime, rollChannels, rollCommand, None)
    {
      this.characters := characters;
      this.anime := anime;
      this.rollChannels := rollChannels;
      this.rollCommand := rollCommand;
      this.status := None;
    }

    function Current(): Settings
      reads this
    {
      Settings(characters, anime, rollChannels, rollCommand, status)
    }

    /** ClearWishlistInternal: a lower-cased category naming a list clears it. */
    method ClearWishlist(category: string)
      modifies this
      ensures var c := ToLower(category);
              Current() == old(Current()).(characters := if c == "characters" then {} else old(characters),
                                           anime := if c == "anime" then {} else old(anime))
    {
      var c := ToLower(category);
      if c == "characters" {
        characters := {};
      } else if c == "anime" {
        anime := {};
      }
    }

    /** The command method for `k`; false when it throws. */
    method Run(k: Kind, arg: Option<string>, channel: Snowflake) returns (ok: bool)
      modifies this
      ensures var r := Execute(old(Current()), k, arg, channel);
              ok == r.Some? && Current() == if ok then r.value else old(Current())
    {
      ok := true;
      match k {
        case Wishlist =>
        case ClaimDelay =>
        case RollInterval =>
        case Wish =>
          if arg.None? { return false; }
          characters := characters + {ToLower(arg.value)};
        case Unwish =>
          if arg.None? { return false; }
          characters := characters - {ToLower(arg.value)};
        case WishAnime =>
          if arg.None? { return false; }
          anime := anime + {ToLower(arg.value)};
        case UnwishAnime =>
          if arg.None? { return false; }
          anime := anime - {ToLower(arg.value)};
        case WishClear =>
          if arg.None? || arg.value == [] {
            // ClearWishlistInternal("characters") and ClearWishlistInternal("anime")
            characters := {};
            anime := {};
          } else {
            ClearWishlist(arg.value);
          }
        case Roll =>
          if arg.Some? && ToLower(arg.value) == "disable" {
            rollChannels := rollChannels - {channel};
          } else {
            rollChannels := rollChannels + {channel};
          }
        case Marry =>
          if arg.None? { return false; }
          rollCommand := MarryCommand(arg.value);
        case Status =>
          if arg.None? { return false; }
          var st := StatusOf(arg.value);
          if st.Some? {
            status := st;
          }
      }
    }

    /** HandleMessageAsync: our own command lines are run; everything else changes
        nothing. */
    method HandleMessage(m: Message, selfId: Snowflake) returns (o: Outcome)
      modifies this
      ensures var h := Handle(old(Current()), m, selfId);
              o == h.outcome && Current() == h.after
    {
      if !m.isUserMessage || m.authorId != selfId {
        return Ignored;
      }
      var p := Parse(m.content);
      if p.NotCommand? {
        return Ignored;
      }
      if p.NoTokens? {
        return Threw;
      }
      var k := Lookup(p.name);
      if k.None? {
        return Unknown;
      }
      var ok := Run(k.value, Argument(p.args), m.channelId);
      o := if ok then Ran(k.value) else Threw;
    }
  }
}
