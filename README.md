# MudaeFarm core, modelled in Dafny

MudaeFarm is a self-bot that plays the Mudae character-collecting game on Discord. It rolls
characters on a timer, claims the wished ones and their kakera, tracks each server's
cooldowns from Mudae's `$tu` status report, and reads its configuration from messages in a
private Discord server. This project models the text-driven decision logic of that bot and
proves what it promises. Every Discord call, delay and clock reading is a parameter of the
model.

The modules follow the program's classes:

- `Base` and `Strings`: the .NET vocabulary the code uses. This covers ticks, ulong ids,
  32-bit decrement and truncating division, `Trim`, `ToLowerInvariant`, `Split`, `Join` and
  `ulong.TryParse`.
- `TimeRegex`: hand-coded matchers for the fixed duration patterns. `TimersUpParser` parses
  the `$tu` report: the line classification, the field writes and the success threshold.
  `MudaeOutputParser` parses the claim-cooldown and roll-limit replies.
- `MudaeInfo`: who counts as Mudae. `MudaeState`: the per-server state record.
  `StateManager`: the state table, its refresh deadline and its one-shot status requests.
- `ClaimEmojiFilter` and `ClaimReactionFilter` (the heart and kakera tables) and
  `CharacterFilter` (the wishlist matcher, with user regexes as abstract predicates).
- `Claimer`: the pending-claim table of the current claimer. `AutoClaimer` and `AutoKakera`:
  the older queue-based claimers. `AutoRoller`: the roll and daily-kakera workers.
- `ConfigManager`:
  - the older channel-based configuration: glob wishlists, `> key` configuration parts and
    their formatting round trip, and deduplicated id lists;
  - the user-wishlist channel (ConfigManager.cs:331-361) has the same shape as the
    bot-channel one (ConfigManager.cs:292-322), with user mentions and "the user exists" in
    place of channel mentions and "is a text channel". It is the same `ParseBotChannels`
    applied to those arguments.
- `ConfigGuild` and `ConfigProvider`, the newer configuration source:
  - finding and naming the configuration server;
  - `DeserializeOrCreate` and the readers of the list channels, with the section dispatch of
    the information channel;
  - the provider table behind `TryGet`.
- `CommandListener`: the self-command tokenizer and its command table.

Where state is updated in place, the model is a class and its methods are proved against the
specification functions, and the lemmas are stated about those functions. This applies to
the claim tables, the message cache, the state table, the worker table, the listener's
settings, the provider table and the `$tu` target record. Loops stay loops, with their
invariants.

## Model

| member | source | states |
|---|---|---|
| MudaeInfo.MaidShapeForced | MudaeFarm/MudaeInfo.cs:12 | in a name of the maid form, the white-space run and the digit run are exactly the longest runs, so the pattern has one way to match |
| MudaeInfo.MaidNameAgrees | MudaeFarm/MudaeInfo.cs:12 | the run-based matcher accepts a name iff it is "Mudamaid", white space, at least one digit, then the end (or a final newline, where `$` also matches) |
| MudaeInfo.IsMudaeSpec | MudaeFarm/MudaeInfo.cs:9-14 | a user is Mudae iff it is a bot and has Mudae's id or a maid name; a non-bot user never is |
| MudaeInfo.MaidNameExamples | MudaeFarm/MudaeInfo.cs:12 | "Mudamaid 12" is a maid name; the match is case-sensitive ("mudamaid 12" is not), and at least one digit is required |
| MudaeState.Default | MudaeFarm/MudaeState.cs:12-92 | a new state has every reset time at DateTime.MaxValue, every flag false and every counter 0 |
| MudaeState.CloneSpec | MudaeFarm/MudaeState.cs:85-96 | a clone keeps every serialised field, brings ForceNextRefresh and LastRefresh back at their defaults, is idempotent and keeps CanKakera |
| MudaeState.SerializeDeserialize | MudaeFarm/MudaeState.cs:96 | deserialising a record and serialising it again gives the same record |
| MudaeState.CloneFixedPoints | MudaeFarm/MudaeState.cs:85-96 | a state equals its clone iff its two ignored fields are at their defaults |
| ClaimEmojiFilter.IndexOf | MudaeFarm/MudaeClaimEmojiFilter.cs:51 | the result is the first position holding the value, or -1 exactly when the table does not hold it |
| ClaimEmojiFilter.IsClaimEmojiSpec | MudaeFarm/MudaeClaimEmojiFilter.cs:24-51 | an emoji is a claim emoji iff custom emotes are on or it equals one of the eighteen Unicode hearts; with custom emotes off a custom emoji never is |
| ClaimEmojiFilter.KakeraOf | MudaeFarm/MudaeClaimEmojiFilter.cs:54-63 | a kind found for a name has a key equal to that name ignoring case |
| ClaimEmojiFilter.LookupSound | MudaeFarm/MudaeClaimEmojiFilter.cs:54-63 | a kind found by the case-sensitive key chain is the kind whose key the name is |
| ClaimEmojiFilter.LookupKey | MudaeFarm/MudaeClaimEmojiFilter.cs:54-63 | every key is found as its own kind (no earlier key shadows it) |
| ClaimEmojiFilter.LowerKeys | MudaeFarm/MudaeClaimEmojiFilter.cs:56-63 | the eight keys are already lower case |
| ClaimEmojiFilter.KakeraOfSpec | MudaeFarm/MudaeClaimEmojiFilter.cs:54-66 | the lookup gives a kind iff the name is that kind's key ignoring case, and nothing iff the name is no key ignoring case |
| ClaimEmojiFilter.KeyOfInjective | MudaeFarm/MudaeClaimEmojiFilter.cs:56-63 | the eight keys name eight distinct kinds, and each key looks up its own kind |
| ClaimEmojiFilter.IsKakeraEmoji | MudaeFarm/MudaeClaimEmojiFilter.cs:66 | the result is true iff the emoji is custom and its name is a key; the out-value is the looked-up kind for every emoji, since `&` does not short-circuit |
| ClaimEmojiFilter.IsKakeraEmojiExample | MudaeFarm/MudaeClaimEmojiFilter.cs:54-66 | "KaKeRaW" on a custom emoji is a rainbow kakera; on a Unicode emoji the result is false, though the kind is still looked up |
| ClaimReactionFilter.SameAsClaimEmojiFilter | MudaeFarm/MudaeClaimReactionFilter.cs:22-49 | the table holds the same eighteen hearts in the same order as the newer filter's, so both filters agree on every emoji and option value |
| ClaimReactionFilter.IsClaimEmojiSpec | MudaeFarm/MudaeClaimReactionFilter.cs:44-50 | with custom emotes on every emoji counts; otherwise exactly the Unicode emoji of the table do |
| CharacterFilter.TrimOrEmpty | MudaeFarm/MudaeClaimCharacterFilter.cs:16-17 | a null string becomes "", any other string is trimmed |
| CharacterFilter.TrimIsTrimmed | MudaeFarm/MudaeClaimCharacterFilter.cs:16-17 | the stored string has no white space at either end |
| CharacterFilter.NewCharacterTrimmed | MudaeFarm/MudaeClaimCharacterFilter.cs:14-18 | neither field of a new character starts or ends with white space |
| CharacterFilter.NewCharacterFixed | MudaeFarm/MudaeClaimCharacterFilter.cs:14-18 | rebuilding a character from its own fields gives the same character |
| CharacterFilter.TrimOrEmptyFixed | MudaeFarm/MudaeClaimCharacterFilter.cs:16-17 | trimming a stored field again changes nothing |
| CharacterFilter.Parenthesise | MudaeFarm/MudaeClaimCharacterFilter.cs:92-94 | each item is wrapped in one pair of parentheses, in order |
| CharacterFilter.NameMatchOf | MudaeFarm/MudaeClaimCharacterFilter.cs:74-98 | an empty wishlist gives the null matcher; otherwise the construction throws iff the alternation does not compile, and else keeps every item as an alternative |
| CharacterFilter.NewNameMatch | MudaeFarm/MudaeClaimCharacterFilter.cs:74-98 | the StringBuilder loop, with its bar separator before every item but the first, builds the alternation of the parenthesised items and gives the constructor's result |
| CharacterFilter.AlternationSnoc | MudaeFarm/MudaeClaimCharacterFilter.cs:85-95 | one loop step appends the parenthesised item, preceded by the bar separator unless it is the first |
| CharacterFilter.ParenthesiseSnoc | MudaeFarm/MudaeClaimCharacterFilter.cs:92-94 | wrapping one more item appends its wrapped form |
| CharacterFilter.NameMatchSpec | MudaeFarm/MudaeClaimCharacterFilter.cs:76-100 | a built name matcher matches a name iff some wishlist entry matches it; an empty wishlist matches nothing |
| CharacterFilter.ItemOf | MudaeFarm/MudaeClaimCharacterFilter.cs:110-114 | an item is built iff its anime pattern compiles and a non-null exclusion list builds; a null exclusion list gives the never-matching default |
| CharacterFilter.AnimeMatchOf | MudaeFarm/MudaeClaimCharacterFilter.cs:121-127 | the anime matcher is built iff every item builds, and then holds one built item per wish, in order |
| CharacterFilter.NewItem | MudaeFarm/MudaeClaimCharacterFilter.cs:110-114 | the Item constructor gives ItemOf's result |
| CharacterFilter.NewAnimeMatch | MudaeFarm/MudaeClaimCharacterFilter.cs:121-127 | the loop filling the item array gives AnimeMatchOf's result; an item that throws aborts it |
| CharacterFilter.AnimeIsMatch | MudaeFarm/MudaeClaimCharacterFilter.cs:129-138 | the loop returns true iff some item matches and false otherwise; a null item array throws |
| CharacterFilter.ItemSpec | MudaeFarm/MudaeClaimCharacterFilter.cs:110-116 | an item without exclusions matches exactly the characters of its anime; with exclusions, it matches iff the anime matches and no exclusion entry matches the name |
| CharacterFilter.AnimeMatchSpec | MudaeFarm/MudaeClaimCharacterFilter.cs:121-138 | a built anime matcher matches iff some item does, so an empty anime list matches nothing |
| CharacterFilter.WishedSpec | MudaeFarm/MudaeClaimCharacterFilter.cs:141 | IsWished throws iff the name does not match and the anime matcher is the default; it is true iff the name matches or some anime item matches |
| CharacterFilter.ResetOutcomes | MudaeFarm/MudaeClaimCharacterFilter.cs:44-141 | empty wishlists wish nothing; a failed name build matches nothing; a failed anime build makes IsWished throw for every character whose name is not wished |
| CharacterFilter.Filter.constructor | MudaeFarm/MudaeClaimCharacterFilter.cs:30-35 | the constructor runs both resets, so each matcher is the built one or the default |
| CharacterFilter.Filter.ResetNameMatch | MudaeFarm/MudaeClaimCharacterFilter.cs:44-55 | the name matcher becomes the built one, or the default when building throws; the anime matcher is unchanged |
| CharacterFilter.Filter.ResetAnimeMatch | MudaeFarm/MudaeClaimCharacterFilter.cs:57-68 | the anime matcher becomes the built one, or the default when building throws; the name matcher is unchanged |
| CharacterFilter.Filter.IsWished | MudaeFarm/MudaeClaimCharacterFilter.cs:141 | the method gives the name matcher's match, and otherwise the anime matcher's result (including its throw) |
| MudaeOutputParser.ParseGroup | MudaeFarm/MudaeOutputParser.cs:22-25 | int.TryParse of a group succeeds iff the group is a non-empty digit string whose value fits an int, and then gives that value |
| MudaeOutputParser.NewTimeSpan | MudaeFarm/MudaeOutputParser.cs:27 | `new TimeSpan(h, m, 0)` throws iff the total seconds leave TimeSpan's range, and otherwise is h hours and m minutes |
| MudaeOutputParser.TryParseTimeNoMatch | MudaeFarm/MudaeOutputParser.cs:20-32 | with no occurrence of the pattern the call returns false and the zero time |
| MudaeOutputParser.TryParseTimeMatched | MudaeFarm/MudaeOutputParser.cs:16-28 | at the leftmost match, a minute group beyond int.MaxValue makes the call return false although the pattern matched; otherwise the result is TimeSpan(hours, minutes, 0), with an unparsable hour group read as 0 |
| MudaeOutputParser.TryParseTimeSucceeds | MudaeFarm/MudaeOutputParser.cs:18-33 | on true the pattern matched, the minute group fits an int and the time is hours·1 h + minutes·1 min; on false the time is zero |
| MudaeOutputParser.NewTimeSpanThrows | MudaeFarm/MudaeOutputParser.cs:16-27 | an hour group of 256204779 (an int) overflows TimeSpan and throws; 256204778 hours do not |
| MudaeOutputParser.LowerLetterNotSpace | MudaeFarm/MudaeOutputParser.cs:35 | a letter is never white space (the words of the notice end each `\s+` run) |
| MudaeOutputParser.LimitedAtSound | MudaeFarm/MudaeOutputParser.cs:35 | the run-based matcher's match has the declarative shape "roulette", white space, "is", white space, "limited" |
| MudaeOutputParser.LimitedShapeForced | MudaeFarm/MudaeOutputParser.cs:35 | in any match each white-space run is the longest run, so the shape has one way to match |
| MudaeOutputParser.LimitedShapeComplete | MudaeFarm/MudaeOutputParser.cs:35 | every string of the declarative shape is accepted by the run-based matcher |
| MudaeOutputParser.LimitedAtAgrees | MudaeFarm/MudaeOutputParser.cs:35 | the run-based matcher accepts at a position iff the declarative shape occurs there |
| MudaeOutputParser.LimitedFromAgrees | MudaeFarm/MudaeOutputParser.cs:35-37 | the unanchored search succeeds from i iff the notice occurs at some position at or after i |
| MudaeOutputParser.RollLimitedSpec | MudaeFarm/MudaeOutputParser.cs:35-37 | IsMatch holds iff "roulette⎵+is⎵+limited" occurs somewhere, ignoring case |
| MudaeOutputParser.TryParseRollLimited | MudaeFarm/MudaeOutputParser.cs:37 | the time is always parsed (the `&` does not short-circuit), so the call throws iff TryParseTime throws; it returns true iff the notice occurs and the time parses, and carries TryParseTime's time either way |
| TimeRegex.Run | MudaeFarm/TimersUpParser.cs:9 | the run measured from a position stays inside the string |
| TimeRegex.RunFacts | MudaeFarm/TimersUpParser.cs:9 | every character of the run is in the class and the character after it (if any) is not |
| TimeRegex.RunIsMaximal | MudaeFarm/TimersUpParser.cs:9 | a run of the class that is followed by the end or by another class is the measured run |
| TimeRegex.MinStartsOutsideClasses | MudaeFarm/TimersUpParser.cs:9 | "min" starts with a character that is no digit, star or white space, so no run can swallow it |
| TimeRegex.MinuteShapeUnique | MudaeFarm/TimersUpParser.cs:9 | in any match of `D\**\s*min` the digit, star and white-space runs are each the longest run of their class |
| TimeRegex.MinuteAtSound | MudaeFarm/TimersUpParser.cs:9 | when the minute matcher succeeds, the minute part of the pattern matches there |
| TimeRegex.MinuteRuns | MudaeFarm/TimersUpParser.cs:9 | the runs the minute matcher measures form a declarative match of the minute part |
| TimeRegex.MinuteAtComplete | MudaeFarm/TimersUpParser.cs:9 | every declarative match of the minute part is found, with the digit run as the minute group |
| TimeRegex.MinuteAtAgrees | MudaeFarm/TimersUpParser.cs:9 | the minute matcher succeeds iff the minute part matches, and then captures the match's digits |
| TimeRegex.HourShapeUnique | MudaeFarm/TimersUpParser.cs:9 | in a match with the hour group, the hour digits and the white space after 'h' are the longest runs |
| TimeRegex.HourAtParts | MudaeFarm/TimersUpParser.cs:9 | a successful hour matcher has an hour part of the pattern followed by a successful minute part, and captures both digit runs |
| TimeRegex.HourRuns | MudaeFarm/TimersUpParser.cs:9 | the runs the hour matcher measures form a declarative match of `D h \s*` |
| TimeRegex.HourAtSound | MudaeFarm/TimersUpParser.cs:9 | when the hour matcher succeeds, the pattern with its hour group matches there |
| TimeRegex.HourAtUnfold | MudaeFarm/TimersUpParser.cs:9 | given the measured runs, the hour matcher's result is the hour digits with the minute group found after them |
| TimeRegex.HourAtComplete | MudaeFarm/TimersUpParser.cs:9 | every declarative match with the hour group is found, with both groups as in the match |
| TimeRegex.HourAtAgrees | MudaeFarm/TimersUpParser.cs:9 | the hour matcher succeeds iff the pattern with the hour group matches, and captures that match's groups |
| TimeRegex.MatchAtIff | MudaeFarm/TimersUpParser.cs:9 | the matcher succeeds at a position iff the pattern matches there in either form |
| TimeRegex.MatchAtAgrees | MudaeFarm/TimersUpParser.cs:9 | the matcher at a position agrees with the pattern, groups included: the greedy hour form wins whenever it can match, and an absent hour group captures "" |
| TimeRegex.LeftmostFinds | MudaeFarm/TimersUpParser.cs:13 | the scan finds nothing iff no position in range yields groups; otherwise it finds the first such position |
| TimeRegex.FirstMatchAgrees | MudaeFarm/MudaeOutputParser.cs:16-20 | Regex.Match succeeds iff the pattern matches at some position; the match is the leftmost one, with the groups taken there |
| TimeRegex.MinuteAtDigits | MudaeFarm/TimersUpParser.cs:9 | the minute group is a digit string of an allowed width (one or two digits, or any number) |
| TimeRegex.HourAtDigits | MudaeFarm/TimersUpParser.cs:9 | both groups of the hour form are digit strings of an allowed width |
| TimeRegex.MatchAtGroupsAreDigits | MudaeFarm/MudaeOutputParser.cs:16 | every captured group is a digit string of the width the pattern allows, and a present hour group is non-empty |
| TimersUpParser.GroupValue | MudaeFarm/TimersUpParser.cs:21-22 | int.TryParse of an absent (empty) group leaves 0 |
| TimersUpParser.FirstMatchWellFormed | MudaeFarm/TimersUpParser.cs:9-13 | the match's groups are ASCII digit strings, the hour group at most two long and the minute group one or two long |
| TimersUpParser.TryParseTimeSpec | MudaeFarm/TimersUpParser.cs:11-25 | TryParseTime succeeds iff "[1-2 digits 'h' spaces] 1-2 digits stars spaces 'min'" occurs anywhere, in any case; it then reads the leftmost occurrence, an absent hour group counting as 0 |
| TimersUpParser.TwoDigitsAtMost99 | MudaeFarm/TimersUpParser.cs:9 | a group of at most two digits reads as at most 99 |
| TimersUpParser.TryParseTimeBounded | MudaeFarm/TimersUpParser.cs:9-24 | a parsed duration lies between zero and 99 hours 99 minutes |
| TimersUpParser.SpanAsWrittenDiffers | MudaeFarm/TimersUpParser.cs:24 | for every non-zero stated duration, `new TimeSpan(0, h, m)` gives one sixtieth of h hours m minutes, never the stated one |
| TimersUpParser.ExampleMatch | MudaeFarm/TimersUpParser.cs:9 | the pattern matches "5min" at its start with no hour group and the minute group "5" |
| TimersUpParser.SpanAsWrittenExample | MudaeFarm/TimersUpParser.cs:24 | "5min" reads as five seconds as written, five minutes as intended |
| TimersUpParser.SpanAsWrittenHourExample | MudaeFarm/TimersUpParser.cs:24 | the groups "1" and "30" read as 90 seconds as written, 90 minutes as intended |
| TimersUpParser.FirstDigitFrom | MudaeFarm/TimersUpParser.cs:28 | the position found is the first digit at or after the start, or the end when there is none |
| TimersUpParser.FirstDigitsSpec | MudaeFarm/TimersUpParser.cs:28-31 | the `\d+` match is the leftmost maximal digit run: empty iff there is no digit, otherwise starting at the first digit and ending before a non-digit |
| TimersUpParser.TryParseInt | MudaeFarm/TimersUpParser.cs:30-31 | a parsed value lies in [0, int.MaxValue]; text without digits fails (value 0) |
| TimersUpParser.MergeThen | MudaeFarm/TimersUpParser.cs:43-125 | writing two lines' effects one after the other is writing their combined effect, the later write of each field winning |
| TimersUpParser.MergeTwice | MudaeFarm/TimersUpParser.cs:43-125 | writing the same effect twice is writing it once |
| TimersUpParser.LineEffects | MudaeFarm/TimersUpParser.cs:43-45 | each line is lower-cased and read on its own, in order |
| TimersUpParser.FailedCount | MudaeFarm/TimersUpParser.cs:121-124 | at most every line is unrecognised |
| TimersUpParser.ReportNeedsAddressee | MudaeFarm/TimersUpParser.cs:35-36 | a message not starting with "**<own username>**" returns false and changes nothing |
| TimersUpParser.ReportVerdict | MudaeFarm/TimersUpParser.cs:130-135 | the result is `failed < lines.Length / 2`, so a report of zero or one line always fails, and LastUpdatedTime becomes now exactly on success |
| TimersUpParser.ReportWritesPersist | MudaeFarm/TimersUpParser.cs:43-135 | every field write of the lines stays in the state, whatever the verdict |
| TimersUpParser.ReportIdempotent | MudaeFarm/TimersUpParser.cs:33-135 | parsing the same report again at the same time changes nothing more |
| TimersUpParser.ConcludeAgain | MudaeFarm/TimersUpParser.cs:127-135 | the steps after the loop give the same state when the lines' writes are applied to their own result again |
| TimersUpParser.PartsEffectWritesPower | MudaeFarm/TimersUpParser.cs:82-101 | the parts of a power line write only KakeraPower and the consumption |
| TimersUpParser.LineEffectWrites | MudaeFarm/TimersUpParser.cs:47-124 | a line writes a field only when it takes that field's branch, and a line taking a field's branch (other than the power line) always writes it |
| TimersUpParser.FoldUnwritten | MudaeFarm/TimersUpParser.cs:43-125 | a field that no line writes is not written by the whole loop |
| TimersUpParser.FoldLastWriteWins | MudaeFarm/TimersUpParser.cs:43-125 | the last line that writes a field decides its value |
| TimersUpParser.MergeUnwritten | MudaeFarm/TimersUpParser.cs:43-125 | a field an effect does not write keeps its value |
| TimersUpParser.ConcludeKeepsFields | MudaeFarm/TimersUpParser.cs:127-133 | the steps after the loop change none of the fields the lines write |
| TimersUpParser.SameFieldTrans | MudaeFarm/TimersUpParser.cs:43-125 | agreement on a field is transitive |
| TimersUpParser.ReportKeepsUnwrittenField | MudaeFarm/TimersUpParser.cs:43-135 | a report with no line of a field's kind leaves that field as it was |
| TimersUpParser.ReportLastLineWins | MudaeFarm/TimersUpParser.cs:43-135 | where several lines of a field's kind occur, the last one decides the field |
| TimersUpParser.MulPositive | MudaeFarm/TimersUpParser.cs:128 | a positive product with a positive factor has a positive other factor |
| TimersUpParser.AverageIntervalAsWrittenTooLarge | MudaeFarm/TimersUpParser.cs:127-128 | dividing the absolute RollsReset ticks by RollsLeft gives an interval larger than the time left divided by RollsLeft once now exceeds RollsLeft ticks |
| TimersUpParser.TimerState.constructor | MudaeFarm/TimersUpParser.cs:33 | a state record holds the given timer values |
| TimersUpParser.ApplyPowerLine | MudaeFarm/TimersUpParser.cs:80-102 | the loop over the '('-separated parts writes KakeraPower for a part naming "power" and the consumption for one naming "consume", the parsed hundredths or 0, the last such part winning |
| TimersUpParser.ApplyLine | MudaeFarm/TimersUpParser.cs:45-124 | one lower-cased line takes the first branch whose two keywords it contains and writes that branch's field, with durations read as intended (hours and minutes, see Findings); it reports whether any branch applied |
| TimersUpParser.ApplyClaimLine | MudaeFarm/TimersUpParser.cs:47-53 | the claim reset becomes now plus the parsed duration, read as hours and minutes (the corrected reading of line 24), or null |
| TimersUpParser.ApplyRollsLeftLine | MudaeFarm/TimersUpParser.cs:55-60 | the rolls left become the first integer of the line, or 0 |
| TimersUpParser.ApplyRollsResetLine | MudaeFarm/TimersUpParser.cs:62-68 | the rolls reset becomes now plus the parsed duration, read as hours and minutes (the corrected reading of line 24), or null |
| TimersUpParser.ApplyKakeraLine | MudaeFarm/TimersUpParser.cs:70-124 | the kakera branches (react, power, stock, then "$dk") in their order, with the corrected duration reading, else the line is unrecognised |
| TimersUpParser.ApplyReactLine | MudaeFarm/TimersUpParser.cs:70-78 | the kakera reset becomes now plus the duration read as hours and minutes (the corrected reading of line 24), else now when the line says "now", else null |
| TimersUpParser.ApplyStockLine | MudaeFarm/TimersUpParser.cs:104-109 | the kakera stock becomes the first integer of the line, or 0 |
| TimersUpParser.ApplyDailyLine | MudaeFarm/TimersUpParser.cs:111-119 | the daily kakera reset becomes now plus the duration read as hours and minutes (the corrected reading of line 24), else now when the line says "ready", else null |
| TimersUpParser.ApplyLines | MudaeFarm/TimersUpParser.cs:41-125 | the loop writes every line's effect (with the corrected duration reading) into the state in order and counts the unrecognised lines |
| TimersUpParser.TryParse | MudaeFarm/TimersUpParser.cs:33-136 | the verdict and the new state are those of the report function, with the corrected readings of lines 24 and 128; its properties are the lemmas above |
| TimersUpParser.FinishReport | MudaeFarm/TimersUpParser.cs:127-135 | the average interval is set when RollsLeft is non-zero and RollsReset is set, to the corrected (RollsReset - now) / RollsLeft of the line-128 Finding; the verdict is `failed < count / 2`, and LastUpdatedTime is set on success only |
| TimersUpParser.AverageIntervalSpec | MudaeFarm/TimersUpParser.cs:127-128 | the corrected interval spreads the rolls left over the time to their reset (that many intervals fit, one more per roll does not), and without a count or reset time the previous average is kept |
| ConfigManager.GlobToRegex | MudaeFarm/ConfigManager.cs:438-439 | every glob character becomes one regex element: `*` any string, `?` one character, everything else an escaped literal |
| ConfigManager.LowerCons | MudaeFarm/ConfigManager.cs:435 | two non-empty strings are equal ignoring case iff their first characters and their rests are |
| ConfigManager.LiteralGlob | MudaeFarm/ConfigManager.cs:435-439 | a glob without wildcards matches exactly the strings equal to it ignoring case |
| ConfigManager.StarMatchesAll | MudaeFarm/ConfigManager.cs:439 | the glob "*" matches every string |
| ConfigManager.QuestionMatchesOne | MudaeFarm/ConfigManager.cs:439 | the glob "?" matches exactly the one-character strings |
| ConfigManager.PrefixGlob | MudaeFarm/ConfigManager.cs:435-439 | a literal glob followed by `*` matches exactly the strings it begins, ignoring case |
| ConfigManager.LoadMessages | MudaeFarm/ConfigManager.cs:189-210 | every loaded message is one of the user's own with non-blank content, and every such message of the history is loaded; `LoadMessagesOrder` gives the order and the multiplicity |
| ConfigManager.KeptFrom | MudaeFarm/ConfigManager.cs:199-207 | the history positions of the kept messages: each kept position once, strictly decreasing, so the oldest (listed last) comes first |
| ConfigManager.LoadMessagesFrom | MudaeFarm/ConfigManager.cs:195-207 | for every suffix of the history, the loaded list has one message per kept position, and the t-th is the history's message at the t-th kept position |
| ConfigManager.LoadMessagesOrder | MudaeFarm/ConfigManager.cs:195-209 | the loaded list is the kept messages, each once, from the oldest to the newest, which is what `list.Reverse()` of a newest-first listing gives |
| ConfigManager.LoadMessagesNewestLast | MudaeFarm/ConfigManager.cs:206-207 | the newest message (listed first), if kept, is loaded last |
| ConfigManager.LoadedPosition | MudaeFarm/ConfigManager.cs:199-207 | every kept message of the history is loaded at some position |
| ConfigManager.LoadedAt | MudaeFarm/ConfigManager.cs:199-207 | every loaded message is a kept message at a history position |
| ConfigManager.OlderLoadedEarlier | MudaeFarm/ConfigManager.cs:206-207 | a kept message further down the history (older) is loaded before a newer one |
| ConfigManager.EntriesSpec | MudaeFarm/ConfigManager.cs:430-432 | an entry is in the set iff it is a trimmed, lower-cased non-empty line of some message |
| ConfigManager.CreateWishlistRegex | MudaeFarm/ConfigManager.cs:425-428 | the regex is null exactly when there are no messages |
| ConfigManager.WishlistMatchSpec | MudaeFarm/ConfigManager.cs:425-439 | the wishlist regex matches a name iff some trimmed, lower-cased line of some message matches it as an anchored glob; duplicates make no difference |
| ConfigManager.WishlistMatchLine | MudaeFarm/ConfigManager.cs:430-435 | a match of the alternation comes from one of the lines |
| ConfigManager.LineMatchesWishlist | MudaeFarm/ConfigManager.cs:430-435 | a line whose glob matches makes the alternation match |
| ConfigManager.SplitAllKeepsPrefix | MudaeFarm/ConfigManager.cs:227-231 | a message starting with "> " keeps that prefix on its first line |
| ConfigManager.PartLines | MudaeFarm/ConfigManager.cs:230-231 | a configuration message has a first line, and it starts with "> " (so `Substring(2)` cannot throw) |
| ConfigManager.NotFences | MudaeFarm/ConfigManager.cs:232 | the kept lines are lines of the message, none starting with "```" |
| ConfigManager.PartsOf | MudaeFarm/ConfigManager.cs:225-232 | every message is read on its own, in order |
| ConfigManager.CollectSnoc | MudaeFarm/ConfigManager.cs:234-242 | one more message adds its part unless its key is present |
| ConfigManager.ParseParts | MudaeFarm/ConfigManager.cs:223-243 | the loop builds the dictionary of the part function, whose properties PartsSpec states |
| ConfigManager.ReadPart | MudaeFarm/ConfigManager.cs:227-242 | a message not starting with "> " or whose key is present leaves the dictionary; otherwise its key is added with its value |
| ConfigManager.AddConfigPart | MudaeFarm/ConfigManager.cs:234-242 | adding a configuration message's part skips a present key and otherwise stores key and value |
| ConfigManager.AddSome | MudaeFarm/ConfigManager.cs:234-242 | adding a part skips a present key and otherwise stores it at its position |
| ConfigManager.PartsStep | MudaeFarm/ConfigManager.cs:225-243 | a loop step extends the dictionary of the messages read so far by one message |
| ConfigManager.PartsOfSnoc | MudaeFarm/ConfigManager.cs:225 | the parts of one more message are the earlier parts and that message's part |
| ConfigManager.CollectKeys | MudaeFarm/ConfigManager.cs:234-242 | a key is in the dictionary iff some part has it |
| ConfigManager.CollectFirstWins | MudaeFarm/ConfigManager.cs:234-242 | a stored key holds the position and value of the first part with that key |
| ConfigManager.PartsSpec | MudaeFarm/ConfigManager.cs:225-243 | a key is present iff some "> " message has it as its trimmed, lower-cased first line, and then it holds the value of the chronologically first such message |
| ConfigManager.PartPresent | MudaeFarm/ConfigManager.cs:220-243 | a key of the general configuration channel is present iff some kept message of the history is a "> " part with that key |
| ConfigManager.OlderHaveOtherKeys | MudaeFarm/ConfigManager.cs:206-243 | no kept message older than the first loaded message with a key has that key |
| ConfigManager.OldestPartWins | MudaeFarm/ConfigManager.cs:206-243 | a present key holds the value of the oldest kept message with that key, since `Reverse` puts it first and the ContainsKey check skips later ones |
| ConfigManager.SplitAllWithoutReturn | MudaeFarm/ConfigManager.cs:230 | without '\r', splitting at '\r' and '\n' is splitting at '\n' |
| ConfigManager.RemoveEmptyNone | MudaeFarm/ConfigManager.cs:230 | removing empty entries from pieces that are all non-empty keeps them |
| ConfigManager.NotFencesNone | MudaeFarm/ConfigManager.cs:232 | lines none of which starts with "```" are all kept |
| ConfigManager.FencesHaveNoLineBreak | MudaeFarm/ConfigManager.cs:421-422 | the quote and the fences of a formatted message hold no line break, and both fences start with "```" |
| ConfigManager.SplitFourLines | MudaeFarm/ConfigManager.cs:230-422 | a formatted message splits into its key line, the fence, the body's lines and the closing fence |
| ConfigManager.RemoveEmptyFourLines | MudaeFarm/ConfigManager.cs:230 | removing empty pieces keeps the non-empty key line and fences |
| ConfigManager.RemoveEmptySingle | MudaeFarm/ConfigManager.cs:230 | a single non-empty piece is kept |
| ConfigManager.FormattedLines | MudaeFarm/ConfigManager.cs:421-422 | the lines of a formatted message are the key line, the opening fence, the body's lines and the closing fence |
| ConfigManager.FormatRoundTrip | MudaeFarm/ConfigManager.cs:227-232 | reading back formatConfigMessage(key, body) gives the trimmed, lower-cased key and the body, for a one-line key and a body without blank or fence lines |
| ConfigManager.FormattedKey | MudaeFarm/ConfigManager.cs:231 | the key read back from a formatted message is the trimmed, lower-cased key |
| ConfigManager.FormattedValue | MudaeFarm/ConfigManager.cs:232 | the value read back from a formatted message is the body |
| ConfigManager.DropFirstLine | MudaeFarm/ConfigManager.cs:232 | `Skip(1)` of the formatted lines keeps the fence, the body lines and the closing fence |
| ConfigManager.BodyLines | MudaeFarm/ConfigManager.cs:232 | dropping the fences and joining with "\n" gives the body back |
| ConfigManager.NotFencesConcat | MudaeFarm/ConfigManager.cs:232 | the fence filter distributes over concatenation |
| ConfigManager.Resolved | MudaeFarm/ConfigManager.cs:297-302 | every message resolves to its own id, in order |
| ConfigManager.Accepted | MudaeFarm/ConfigManager.cs:297-321 | when the loop completes it has one rejected-or-accepted mark per message |
| ConfigManager.ParseBotChannels | MudaeFarm/ConfigManager.cs:294-321 | the loop gives the bot-channel function's set (None when SingleOrDefault throws) and its per-message rejections |
| ConfigManager.ResolvedSnoc | MudaeFarm/ConfigManager.cs:297-302 | the ids of one more message are the earlier ids and its id |
| ConfigManager.LaterThrows | MudaeFarm/ConfigManager.cs:297-299 | once a message throws, the whole reload throws |
| ConfigManager.AcceptedSnoc | MudaeFarm/ConfigManager.cs:304-312 | one more id is rejected when it is no text channel or already added, and otherwise added |
| ConfigManager.PrefixThrows | MudaeFarm/ConfigManager.cs:297-299 | once a prefix throws, so does every longer run of messages |
| ConfigManager.AcceptedSet | MudaeFarm/ConfigManager.cs:295-321 | the set is None iff some id is missing; otherwise it holds exactly the known text channels among the ids |
| ConfigManager.AcceptedRejected | MudaeFarm/ConfigManager.cs:304-312 | a message is rejected iff its id is no known text channel or an earlier message named it |
| ConfigManager.BotChannelsSpec | MudaeFarm/ConfigManager.cs:294-321 | bot channels are deduplicated: the reload throws iff some message mentions two channels or more; otherwise the set is exactly the known text channels named, and a repeated or unknown id is rejected |
| ConfigManager.BotChannelsThrow | MudaeFarm/ConfigManager.cs:299 | SingleOrDefault throws (and the reload with it) iff some message mentions two channels or more |
| ConfigManager.BotChannelsSet | MudaeFarm/ConfigManager.cs:301-321 | the stored set holds exactly the known text channels the messages name, a parsed content overriding the mention |
| ConfigManager.BotChannelsRejected | MudaeFarm/ConfigManager.cs:304-312 | a message is rejected iff its id is no known text channel or an earlier message named it |
| ConfigGuild.FieldsOf | MudaeFarm/DiscordConfigurationSource.cs:73-92 | one field per topic line, each the line's own reading |
| ConfigGuild.ParseTopic | MudaeFarm/DiscordConfigurationSource.cs:68-93 | the topic loop leaves userId and profile as the fold of the lines' fields, later lines overriding earlier ones |
| ConfigGuild.ProfileNone | MudaeFarm/DiscordConfigurationSource.cs:71-91 | the profile stays null iff no line sets it |
| ConfigGuild.ProfileLast | MudaeFarm/DiscordConfigurationSource.cs:89-91 | a profile comes from the last line that sets one |
| ConfigGuild.UserIdNone | MudaeFarm/DiscordConfigurationSource.cs:70-87 | the user id stays null iff no "mudaefarm" line has a ulong value |
| ConfigGuild.UserIdLast | MudaeFarm/DiscordConfigurationSource.cs:85-87 | a user id comes from the last such line |
| ConfigGuild.TopicProfile | MudaeFarm/DiscordConfigurationSource.cs:73-93 | on topic lines: null iff no line sets a profile, otherwise the last such line decides |
| ConfigGuild.CreatedTopicLines | MudaeFarm/DiscordConfigurationSource.cs:68-124 | a created topic splits at '\n' into its user, profile and version lines |
| ConfigGuild.CreatedTopicJoin | MudaeFarm/DiscordConfigurationSource.cs:124 | the created topic is its three lines joined with '\n' |
| ConfigGuild.UserIdLineUnbroken | MudaeFarm/DiscordConfigurationSource.cs:124 | the user id line holds no line break |
| ConfigGuild.ProfileLineUnbroken | MudaeFarm/DiscordConfigurationSource.cs:124 | the profile line of a clean profile holds no line break |
| ConfigGuild.VersionLineUnbroken | MudaeFarm/DiscordConfigurationSource.cs:124 | the version line of a one-line version holds no line break |
| ConfigGuild.LabelsHaveNoColon | MudaeFarm/DiscordConfigurationSource.cs:124 | the labels "MudaeFarm", "Profile" and "Version" hold no ':' |
| ConfigGuild.LabelLine | MudaeFarm/DiscordConfigurationSource.cs:75 | a label line splits at its first ':' into the label and the rest |
| ConfigGuild.UserIdLabelKey | MudaeFarm/DiscordConfigurationSource.cs:80-85 | the trimmed, lower-cased "MudaeFarm" label is the key "mudaefarm" |
| ConfigGuild.ProfileLabelKey | MudaeFarm/DiscordConfigurationSource.cs:80-89 | the trimmed, lower-cased "Profile" label is the key "profile" |
| ConfigGuild.VersionLabelLower | MudaeFarm/DiscordConfigurationSource.cs:80-83 | the "Version" label reads as the key "version" |
| ConfigGuild.VersionLabelKey | MudaeFarm/DiscordConfigurationSource.cs:83-92 | the version key is neither of the two recognised keys |
| ConfigGuild.BoldValue | MudaeFarm/DiscordConfigurationSource.cs:81 | trimming spaces and '*' off " **v**" gives v back when v has neither at its ends |
| ConfigGuild.BoldLine | MudaeFarm/DiscordConfigurationSource.cs:75-124 | a bolded label line splits into the label and the bolded value |
| ConfigGuild.BoldRegroup | MudaeFarm/DiscordConfigurationSource.cs:124 | regrouping of the bolded line's pieces |
| ConfigGuild.UserIdLineParts | MudaeFarm/DiscordConfigurationSource.cs:75-124 | the user id line splits into its label and its bolded digits |
| ConfigGuild.UserIdValue | MudaeFarm/DiscordConfigurationSource.cs:81-124 | the user id line's value trims to the id's digits |
| ConfigGuild.UserIdLineField | MudaeFarm/DiscordConfigurationSource.cs:75-124 | the user id line written reads back as that id |
| ConfigGuild.ProfileLineParts | MudaeFarm/DiscordConfigurationSource.cs:75-124 | the profile line splits into its label and its bolded profile |
| ConfigGuild.ProfileLineField | MudaeFarm/DiscordConfigurationSource.cs:75-124 | the profile line written reads back as the profile, null as the empty string |
| ConfigGuild.VersionLineField | MudaeFarm/DiscordConfigurationSource.cs:75-124 | the version line sets nothing |
| ConfigGuild.CreatedTopicFields | MudaeFarm/DiscordConfigurationSource.cs:68-124 | the created topic's lines set the user id, the profile and nothing |
| ConfigGuild.CreatedTopicValues | MudaeFarm/DiscordConfigurationSource.cs:68-124 | reading a created topic back gives the user id and the profile as written, null as empty |
| ConfigGuild.FoldCreated | MudaeFarm/DiscordConfigurationSource.cs:73-93 | folding those three fields gives that user id and profile |
| ConfigGuild.NullProfileNotFoundAgain | MudaeFarm/DiscordConfigurationSource.cs:95-124 | with no selected profile, the server created is not chosen by the comparison as written, but is by the corrected one |
| ConfigGuild.CreatedTopicSelected | MudaeFarm/DiscordConfigurationSource.cs:95-124 | the corrected comparison chooses a created topic for its own user and profile |
| ConfigGuild.InformationTopicSpec | MudaeFarm/DiscordConfigurationSource.cs:67 | the topic is the first "information" channel's (null read as empty), and empty without such a channel |
| ConfigGuild.CheckGuild | MudaeFarm/DiscordConfigurationSource.cs:64-99 | the loop body chooses a guild iff it is owned by the current user and its topic names that user and the selected profile, a null profile comparing equal to "" (the corrected comparison of line 95) |
| ConfigGuild.FindConfigurationGuild | MudaeFarm/DiscordConfigurationSource.cs:60-103 | the result is the first guild chosen by the corrected line-95 comparison, in listing order, and null iff no guild is chosen |
| ConfigGuild.CreatedGuildChosen | MudaeFarm/DiscordConfigurationSource.cs:60-124 | a guild created for the selected profile is chosen on the next start |
| ConfigGuild.GuildNameSpec | MudaeFarm/DiscordConfigurationSource.cs:111-115 | the name is plain "MudaeFarm" exactly for a null, empty or "default" (any case) profile, and otherwise "MudaeFarm (p)" with p readable back |
| ConfigProvider.DeserializeOrCreateSpec | MudaeFarm/DiscordConfigurationSource.cs:163-171 | a value is read as JSON iff it starts with '{' and deserialises; a '{' value that does not deserialise throws; otherwise the item is configured from the value (name, content, or a ulong, with ulong.Parse failing as an error) |
| ConfigProvider.BotChannelItemSpec | MudaeFarm/DiscordConfigurationSource.cs:240-257 | a bot-channels message is a plain ulong, else its first mentioned channel when that is not 0, else DeserializeOrCreate |
| ConfigProvider.UserItemMentionLost | MudaeFarm/DiscordConfigurationSource.cs:286-291 | as written, a message whose content is no ulong but which mentions a user yields id 0; the corrected reader yields the mentioned user |
| ConfigProvider.UserItemAgrees | MudaeFarm/DiscordConfigurationSource.cs:277-294 | the two readers agree whenever the content is a ulong or no user is mentioned |
| ConfigProvider.MentionIsNotNumber | MudaeFarm/DiscordConfigurationSource.cs:277 | a mention "<...>" is never a ulong, so it reaches the mention branch |
| ConfigProvider.UserMentionExample | MudaeFarm/DiscordConfigurationSource.cs:290 | the message "<@42>" mentioning user 42 is stored as user 0 as written and as user 42 when corrected |
| ConfigProvider.Loaded | MudaeFarm/DiscordConfigurationSource.cs:151-161 | EnumerateMessagesAsync reads the first 1000 messages of the listing (`_loadMessages`), or all of them when there are fewer |
| ConfigProvider.UserMessages | MudaeFarm/DiscordConfigurationSource.cs:156-160 | exactly the user messages among the messages read, in order |
| ConfigProvider.AddItemSnoc | MudaeFarm/DiscordConfigurationSource.cs:220-221 | one more message appends its item to the list (when it is a user message) |
| ConfigProvider.AddItemNone | MudaeFarm/DiscordConfigurationSource.cs:220-221 | adding a message fails iff the list already failed or the message's item throws |
| ConfigProvider.ItemsFail | MudaeFarm/DiscordConfigurationSource.cs:217-298 | reading a list channel throws iff some user message's item throws |
| ConfigProvider.FailingItem | MudaeFarm/DiscordConfigurationSource.cs:217-298 | a failed list names a message whose item throws |
| ConfigProvider.ThrowingItemFails | MudaeFarm/DiscordConfigurationSource.cs:217-298 | a message whose item throws makes the whole list fail |
| ConfigProvider.ItemsValue | MudaeFarm/DiscordConfigurationSource.cs:217-298 | a list read without error has one item per user message, each that message's item, in order |
| ConfigProvider.CollectItems | MudaeFarm/DiscordConfigurationSource.cs:218-221 | the collecting loop gives the list function's result, whose wishlist-users items use the corrected reader of the line-290 Finding |
| ConfigProvider.MalformedJsonThrows | MudaeFarm/DiscordConfigurationSource.cs:163-167 | a name or reply message that starts with '{' but does not deserialise throws, and the whole list fails |
| ConfigProvider.MalformedJsonExample | MudaeFarm/DiscordConfigurationSource.cs:163-167 | the message "{oops" throws in every list channel, the bot-channel and user lists included |
| ConfigProvider.LaterItemsFail | MudaeFarm/DiscordConfigurationSource.cs:220-221 | once a prefix of the messages fails, the whole channel fails |
| ConfigProvider.InfoFails | MudaeFarm/DiscordConfigurationSource.cs:187-215 | the information channel throws iff some message names a section that is neither miscellaneous nor one of the three options sections, or names an options section whose data does not deserialise |
| ConfigProvider.InfoStopsAt | MudaeFarm/DiscordConfigurationSource.cs:204-211 | the first section that throws (unknown, or data that does not deserialise) stops the loop: the writes made before it stay |
| ConfigProvider.InfoWrites | MudaeFarm/DiscordConfigurationSource.cs:194-211 | the only keys written are the three options sections, and the only messages deleted are miscellaneous ones |
| ConfigProvider.InfoKeepsKeys | MudaeFarm/DiscordConfigurationSource.cs:198-211 | the information channel removes no section and undeletes no message |
| ConfigProvider.ReloadIgnores | MudaeFarm/DiscordConfigurationSource.cs:177-178 | a channel that is not a message channel of the configuration server is ignored and nothing changes |
| ConfigProvider.ReloadList | MudaeFarm/DiscordConfigurationSource.cs:217-298 | a list channel with a throwing message among the first 1000 changes nothing; otherwise its section is replaced by one item per user message read, nothing else changes, and the reload is signalled |
| ConfigProvider.ReloadInformation | MudaeFarm/DiscordConfigurationSource.cs:187-215 | the information channel fails iff, among the first 1000 messages, some section is unknown or has data that does not deserialise; its writes are only options sections and miscellaneous deletions, and the reload is signalled iff it did not fail |
| ConfigProvider.ReloadOther | MudaeFarm/DiscordConfigurationSource.cs:300-308 | any other channel name changes no section and is still signalled as a reload |
| ConfigProvider.ReloadKeepsSections | MudaeFarm/DiscordConfigurationSource.cs:175-314 | no reload removes a section |
| ConfigProvider.LookupSpec | MudaeFarm/DiscordConfigurationSource.cs:326-331 | a key "section:rest" finds the section ignoring case and hands the rest on |
| ConfigProvider.LookupNoColon | MudaeFarm/DiscordConfigurationSource.cs:328-334 | a key without ':' finds nothing |
| ConfigProvider.LookupIgnoresCase | MudaeFarm/DiscordConfigurationSource.cs:324 | section names that differ only in case find the same entry |
| ConfigProvider.Provider.constructor | MudaeFarm/DiscordConfigurationSource.cs:324 | a new provider has no sections, no deletions and no reloads |
| ConfigProvider.Provider.Reload | MudaeFarm/DiscordConfigurationSource.cs:175-314 | the provider's new state and outcome are the reload function's, whose properties the Reload lemmas state; wishlist-users items use the corrected reader of the line-290 Finding |
| ConfigProvider.Provider.ReadInformation | MudaeFarm/DiscordConfigurationSource.cs:188-213 | the information loop leaves the sections and deletions of the information fold and reports whether it threw |
| ConfigProvider.Provider.ReadSection | MudaeFarm/DiscordConfigurationSource.cs:190-211 | one information message: reports whether it throws (an unknown section or data that does not deserialise) and applies one fold step |
| ConfigProvider.Provider.TryGet | MudaeFarm/DiscordConfigurationSource.cs:326-335 | a hit comes from a section key, found ignoring case, before the first ':' |
| CommandListener.Parse | MudaeFarm/CommandListener.cs:80-87 | a text is a command iff it starts with "/"; the command and every argument are non-empty and hold no space |
| CommandListener.SpacesSplitToNothing | MudaeFarm/CommandListener.cs:85 | a run of spaces splits into no pieces |
| CommandListener.SlashAloneHasNoTokens | MudaeFarm/CommandListener.cs:85-86 | "/" followed only by spaces has no command part, so `parts[0]` throws |
| CommandListener.SplitJoinedTokens | MudaeFarm/CommandListener.cs:85 | splitting tokens joined with spaces gives the tokens back |
| CommandListener.ParseJoin | MudaeFarm/CommandListener.cs:82-87 | "/" and space-joined tokens parse to the first token and the rest |
| CommandListener.Argument | MudaeFarm/CommandListener.cs:47 | the string argument is null exactly when there are no arguments |
| CommandListener.ArgumentRoundTrip | MudaeFarm/CommandListener.cs:47-85 | the joined argument splits back into the arguments |
| CommandListener.Name | MudaeFarm/CommandListener.cs:113-331 | every registered command name is a single token |
| CommandListener.Lookup | MudaeFarm/CommandListener.cs:89 | a name finds a command iff it is in the command table |
| CommandListener.LookupSpec | MudaeFarm/CommandListener.cs:26-331 | each command is found exactly under the name it is registered with |
| CommandListener.LookupCaseSensitive | MudaeFarm/CommandListener.cs:89 | the lookup is case-sensitive |
| CommandListener.ClearTargetsSpec | MudaeFarm/CommandListener.cs:225-247 | a category clears at most one wishlist: characters iff it is "characters" and anime iff "anime", ignoring case |
| CommandListener.MarryCommandSpec | MudaeFarm/CommandListener.cs:312-321 | the roll command becomes "w" for "waifu", "h" for "husbando" (any case), and is kept otherwise |
| CommandListener.MarryCommandIdempotent | MudaeFarm/CommandListener.cs:312-321 | mapping the roll command twice gives what mapping it once gives |
| CommandListener.MarryCommandExamples | MudaeFarm/CommandListener.cs:312-321 | "WaiFu" becomes "w"; "WA" is kept |
| CommandListener.Spellings | MudaeFarm/CommandListener.cs:336-357 | every status has at least one spelling |
| CommandListener.StatusOfSpec | MudaeFarm/CommandListener.cs:336-359 | a word sets a status iff its lower case is one of that status's spellings, and sets none iff it is no spelling at all |
| CommandListener.Execute | MudaeFarm/CommandListener.cs:152-364 | a command fails iff it needs its argument and has none |
| CommandListener.WishEditSpec | MudaeFarm/CommandListener.cs:151-205 | wish and unwish add or remove the lower-cased name in their own list only, ignoring the argument's case and changing nothing else |
| CommandListener.WishThenUnwish | MudaeFarm/CommandListener.cs:151-177 | wishing and then unwishing a character (in any case) leaves the list without it |
| CommandListener.WishClearSpec | MudaeFarm/CommandListener.cs:207-247 | wishclear without a category clears both lists, with "characters" or "anime" only that one, and changes nothing else |
| CommandListener.RollSpec | MudaeFarm/CommandListener.cs:281-300 | the channel is a roll channel afterwards iff the action is not "disable"; no other channel or setting changes, and repeating it changes nothing |
| CommandListener.ExecuteIgnoresCase | MudaeFarm/CommandListener.cs:152-364 | every command but marry ignores its argument's case; marry keeps a command that is not waifu or husbando as typed |
| CommandListener.Handle | MudaeFarm/CommandListener.cs:60-98 | only the user's own user messages are handled; an outcome that runs no command changes nothing |
| CommandListener.ParseCommandLine | MudaeFarm/CommandListener.cs:82-89 | a command typed as "/name args" parses into that name and those arguments and finds that command |
| CommandListener.HandleCommandLine | MudaeFarm/CommandListener.cs:60-98 | the user's own "/name args" runs the command, or is logged as an exception when its argument is missing |
| CommandListener.HandleCommand | MudaeFarm/CommandListener.cs:78-98 | a parsed, known command runs with its arguments, or throws when its argument is missing |
| CommandListener.Listener.constructor | MudaeFarm/CommandListener.cs:16-20 | a new listener holds the given settings and no status |
| CommandListener.Listener.ClearWishlist | MudaeFarm/CommandListener.cs:225-247 | clears exactly the list the category names, ignoring case |
| CommandListener.Listener.Run | MudaeFarm/CommandListener.cs:92 | running a command leaves the settings the command function gives, and reports whether it ran |
| CommandListener.Listener.HandleMessage | MudaeFarm/CommandListener.cs:60-98 | the outcome and new settings are those of handling the message |
| Claimer.Purged | MudaeFarm/MudaeClaimer.cs:141-145 | the purge only removes pending claims |
| Claimer.IgnoredUnlessAnnounced | MudaeFarm/MudaeClaimer.cs:79-83 | a message is ignored unless claiming is enabled, it is a user message from Mudae in a bot channel, and it has an embed |
| Claimer.InventoryIgnored | MudaeFarm/MudaeClaimer.cs:95-97 | an embed with a line starting "claims:" or "likes:" (any case) is ignored |
| Claimer.StoredSpec | MudaeFarm/MudaeClaimer.cs:79-138 | a claim is stored iff the message announces a character outside $im; a "belongs" footer makes it kakera-only and needs the kakera cooldown passed (or ignored); otherwise the character must be wished and the claim cooldown passed (or ignored) |
| Claimer.FreshChannelNoCooldown | MudaeFarm/MudaeClaimer.cs:67-73 | a channel seen for the first time is on no cooldown |
| Claimer.PendingAfterSpec | MudaeFarm/MudaeClaimer.cs:111-145 | a stored claim is pending under the message id with its time, channel, character and kind; other claims survive iff they are under a minute old; a message not stored changes nothing |
| Claimer.WithReset | MudaeFarm/MudaeClaimer.cs:215-248 | a reported cooldown writes the kakera or the claim reset time of that channel's state, adding the state if missing, and nothing else |
| Claimer.BranchSpec | MudaeFarm/MudaeClaimer.cs:176-224 | a reaction acts only while claiming is enabled and the message is pending; a kakera emoji takes the kakera branch; the claim branch is taken iff the emoji is a claim emoji, not kakera, and the claim is not kakera-only |
| Claimer.ConsumedOnce | MudaeFarm/MudaeClaimer.cs:176-224 | a branch consumes the pending claim, so a second reaction on the message does nothing |
| Claimer.ReactionSpec | MudaeFarm/MudaeClaimer.cs:187-254 | a cooldown is recorded only when Mudae replied with the matching failure message; an untargeted kakera is ignored; a success naming the user counts as claimed |
| Claimer.Decide | MudaeFarm/MudaeClaimer.cs:79-138 | the message handler's decision is the verdict function's |
| Claimer.PurgeStale | MudaeFarm/MudaeClaimer.cs:141-145 | the purge loop leaves the purged claims |
| Claimer.Claimer.constructor | MudaeFarm/MudaeClaimer.cs:67-170 | a new claimer has no channel states and no pending claims |
| Claimer.Claimer.HandleMessageReceived | MudaeFarm/MudaeClaimer.cs:76-146 | the verdict is the verdict function's, and the states and pending claims are updated as that verdict says |
| Claimer.Claimer.Record | MudaeFarm/MudaeClaimer.cs:105-145 | records a verdict: the channel state is added and the claim stored and the old ones purged |
| Claimer.Claimer.HandleReactionAdded | MudaeFarm/MudaeClaimer.cs:172-256 | the result is that of the reaction's branch; a branch consumes the pending claim, and only a reported cooldown writes a channel state |
| AutoClaimer.DigitNotSpace | MudaeFarm/AutoClaimer.cs:84 | a digit is not white space, so the runs of the $im footer pattern do not overlap |
| AutoClaimer.ImShapeComplete | MudaeFarm/AutoClaimer.cs:84 | every text of the shape spaces, digits, spaces, '/', spaces, digits at its start matches the footer pattern |
| AutoClaimer.LeftRuns | MudaeFarm/AutoClaimer.cs:84 | the greedy runs before the slash are exactly the shape's runs |
| AutoClaimer.RightRuns | MudaeFarm/AutoClaimer.cs:84 | the greedy runs after the slash are the shape's white space and at least one digit |
| AutoClaimer.RunsShape | MudaeFarm/AutoClaimer.cs:84 | the greedy runs form the shape |
| AutoClaimer.SpaceThenDigits | MudaeFarm/AutoClaimer.cs:84 | a greedy white-space run followed by a greedy digit run covers only such characters |
| AutoClaimer.ImFooterSound | MudaeFarm/AutoClaimer.cs:84-101 | a matched footer has the shape |
| AutoClaimer.ImFooterAgrees | MudaeFarm/AutoClaimer.cs:84-101 | the footer test matches exactly the texts that begin with the shape |
| AutoClaimer.ImFooterExamples | MudaeFarm/AutoClaimer.cs:84-101 | " 3 / 10" is an $im footer and "Page 3 / 10" is not |
| AutoClaimer.ReadEmbedSpec | MudaeFarm/AutoClaimer.cs:94-110 | an embed is read iff its footer neither starts "Belongs to" nor is an $im footer, and its author exists without an icon; character and anime are the trimmed, lower-cased author name and first description line |
| AutoClaimer.QueuedSpec | MudaeFarm/AutoClaimer.cs:59-139 | a character is queued iff the message passes the gates, its embed is read, the character or the anime matches a wishlist regex, and the guild is not blocked; the queue item holds channel, guild, character and anime |
| AutoClaimer.FooterIgnoredSpec | MudaeFarm/AutoClaimer.cs:94-103 | a "Belongs to" or $im footer makes the message ignored |
| AutoClaimer.NullRegexesQueueNothing | MudaeFarm/AutoClaimer.cs:115-116 | with both wishlist regexes null nothing is queued |
| AutoClaimer.UnseenGuildWaits | MudaeFarm/AutoClaimer.cs:120-127 | a guild seen for the first time starts with its claim blocked until the far future and gets the fresh state |
| AutoClaimer.QueueOnlyGrows | MudaeFarm/AutoClaimer.cs:133-146 | the queue is never emptied: entries are only added or overwritten by message id |
| AutoClaimer.SameHearts | MudaeFarm/AutoClaimer.cs:18-38 | the claimer's hearts are the claim filter's hearts |
| AutoClaimer.ReactionSpec | MudaeFarm/AutoClaimer.cs:155-182 | a reaction claims iff the message is queued, the emote is a heart and the reaction was sent; the guild's state then cannot claim and no other guild changes |
| AutoClaimer.Claimer.constructor | MudaeFarm/AutoClaimer.cs:44-146 | a new claimer starts with an empty queue |
| AutoClaimer.Claimer.HandleMessage | MudaeFarm/AutoClaimer.cs:59-144 | the verdict is the verdict function's; the queue and the guild states change as it says and the state sources do not |
| AutoClaimer.Claimer.Apply | MudaeFarm/AutoClaimer.cs:120-139 | applies a verdict to the queue and to the guild states |
| AutoClaimer.Claimer.HandleReaction | MudaeFarm/AutoClaimer.cs:155-182 | the result is the reaction function's; only a claim changes a guild's state |
| AutoKakera.KakeraOfSpec | MudaeFarm/AutoKakera.cs:27-95 | an emote name finds a kakera kind iff it is exactly that kind's key, and none iff it is no key |
| AutoKakera.KakeraOfCaseSensitive | MudaeFarm/AutoKakera.cs:35-95 | the lookup is case-sensitive: "kakeraR" and "KAKERA" find nothing, "KakeraR" is red |
| AutoKakera.Evicted | MudaeFarm/AutoKakera.cs:63-67 | eviction only removes cached messages |
| AutoKakera.CacheAfterSpec | MudaeFarm/AutoKakera.cs:45-67 | a Mudae message with an embed in a bot channel is cached unless already five minutes old, other entries stay iff they are under five minutes old; any other message changes nothing |
| AutoKakera.NothingStaleAfterCaching | MudaeFarm/AutoKakera.cs:61-67 | after caching no entry is five minutes old or more |
| AutoKakera.Evict | MudaeFarm/AutoKakera.cs:63-67 | the eviction loop leaves the evicted cache |
| AutoKakera.Consumed | MudaeFarm/AutoKakera.cs:114 | a claim lowers the kakera power by the consumption and changes nothing else of the state |
| AutoKakera.ClaimedSpec | MudaeFarm/AutoKakera.cs:72-111 | kakera is claimed iff claiming is on, the channel is a guild bot channel, the message is cached, Mudae reacted with a targeted kakera key, the power covers the consumption, and the reaction was sent |
| AutoKakera.StatesAfterSpec | MudaeFarm/AutoKakera.cs:103-114 | a claim consumes power in that guild's state only; an outcome that does not reach the state lookup changes no state |
| AutoKakera.ClaimsRepeat | MudaeFarm/AutoKakera.cs:103-114 | a second identical reaction claims again while the power still covers it |
| AutoKakera.UnseenGuildClaims | MudaeFarm/AutoKakera.cs:103-106 | a guild seen for the first time has power to claim |
| AutoKakera.Kakera.constructor | MudaeFarm/AutoKakera.cs:20-70 | a new kakera claimer has an empty cache |
| AutoKakera.Kakera.HandleMessage | MudaeFarm/AutoKakera.cs:45-68 | the cache becomes the caching function's |
| AutoKakera.Kakera.HandleReaction | MudaeFarm/AutoKakera.cs:72-115 | the outcome and the new guild states are the reaction functions'; the state sources do not change |
| AutoRoller.ReloadedSpec | MudaeFarm/AutoRoller.cs:37-91 | after a reload the workers are exactly the current guilds: new guilds get a new worker, vanished ones are cancelled, the others keep theirs |
| AutoRoller.ReloadedIdempotent | MudaeFarm/AutoRoller.cs:46-47 | reloading again with the same guilds changes nothing |
| AutoRoller.FindBotChannel | MudaeFarm/AutoRoller.cs:112-115 | the roll channel is the first of the guild's text channels that is a bot channel, or none |
| AutoRoller.IntervalSpec | MudaeFarm/AutoRoller.cs:99-110 | an override is used as given; otherwise there is no round iff rolling is off or no rolls are left, and the interval is the time to the reset divided by the rolls left, truncated toward zero |
| AutoRoller.Clamped | MudaeFarm/AutoRoller.cs:138-139 | the wait is at least five seconds and is the interval whenever that is longer |
| AutoRoller.RollSpec | MudaeFarm/AutoRoller.cs:93-141 | a round waits at least five seconds; it sends iff there is an interval, a bot channel and the send succeeds; a send lowers that guild's rolls left by one (32-bit) and nothing else changes |
| AutoRoller.RollNeverWrapsWithoutOverride | MudaeFarm/AutoRoller.cs:103-125 | without an override a roll is sent only with rolls left, so the decrement does not wrap |
| AutoRoller.DailySpec | MudaeFarm/AutoRoller.cs:145-180 | the daily kakera command is sent iff it is enabled, available, a bot channel exists and the send succeeds; a send clears the daily flag of that guild only; the state update follows only a send |
| AutoRoller.DailyOnce | MudaeFarm/AutoRoller.cs:151-170 | after the daily kakera is sent the next round waits |
| AutoRoller.Roller.constructor | MudaeFarm/AutoRoller.cs:16-25 | a new roller has no workers |
| AutoRoller.Roller.ReloadWorkers | MudaeFarm/AutoRoller.cs:37-91 | the workers become the reload function's; started are the new guilds and cancelled the vanished ones |
| AutoRoller.Roller.RollRoundFor | MudaeFarm/AutoRoller.cs:95-141 | one roll round's result and the new guild states are those of the roll functions |
| AutoRoller.Roller.DailyRoundFor | MudaeFarm/AutoRoller.cs:147-190 | one daily round's result and the new guild states are those of the daily functions |
| StateManager.Min | MudaeFarm/MudaeStateManager.cs:66-70 | a null bound leaves the time alone; otherwise the result is the smaller of the two |
| StateManager.DeadlineSpec | MudaeFarm/MudaeStateManager.cs:39-51 | the update time is the least of DateTime.MaxValue and the applicable reset times: no later than any of them, and one of them |
| StateManager.ShouldRefreshSpec | MudaeFarm/MudaeStateManager.cs:53 | a guild is refreshed iff its refresh is forced or some applicable reset time has passed |
| StateManager.NothingPendingWaits | MudaeFarm/MudaeStateManager.cs:41-53 | with everything available, only a forced refresh happens |
| StateManager.Fresh | MudaeFarm/MudaeStateManager.cs:91-94 | a state made on first sight is the default state with a forced refresh |
| StateManager.AfterGetSpec | MudaeFarm/MudaeStateManager.cs:88-94 | Get adds a fresh, force-refreshed state for an unseen guild, keeps a seen guild's state and every other entry, and a second Get changes nothing |
| StateManager.FirstBotChannel | MudaeFarm/MudaeStateManager.cs:104 | the channel picked is the first text channel that is a bot channel, and none iff there is none |
| StateManager.Completion | MudaeFarm/MudaeStateManager.cs:79-82 | a message completes a request iff it is Mudae's, in a channel awaiting an answer, and parses as a state report |
| StateManager.CompletesOnce | MudaeFarm/MudaeStateManager.cs:81-82 | a request, once completed, is not completed again |
| StateManager.Manager.constructor | MudaeFarm/MudaeStateManager.cs:14-73 | a new manager has no states and no outstanding requests |
| StateManager.Manager.Get | MudaeFarm/MudaeStateManager.cs:88-94 | the table becomes the lazy-add function's, and the state returned is the guild's |
| StateManager.Manager.HandleMessage | MudaeFarm/MudaeStateManager.cs:76-86 | the completed report is the completion function's; it removes that request only; the states do not change |
| StateManager.Manager.Refresh | MudaeFarm/MudaeStateManager.cs:96-150 | a refresh succeeds iff there is a bot channel and Mudae answers; the request is removed afterwards either way, and only a success stores the reported state |
| StateManager.Manager.Visit | MudaeFarm/MudaeStateManager.cs:37-59 | a guild is refreshed only when its deadline passed or a refresh is forced; the outcome and new states are the refresh's |
| Base.Decrement32 | MudaeFarm/AutoRoller.cs:125 | `--state.RollsLeft` on a 32-bit int: one less, wrapping from int.MinValue to int.MaxValue |
| Base.TruncatingDivBounds | MudaeFarm/AutoRoller.cs:109 | the tick division truncates toward zero: the quotient times the divisor lies between 0 and the dividend, less than one divisor away |
| Base.Purge | MudaeFarm/MudaeClaimer.cs:141-145 | the purge loop over a dictionary's keys keeps exactly the entries that are not expired, unchanged |

## Left out

- Discord I/O is not modelled: sending, reacting, editing, deleting and creating servers or channels. Where an outcome matters, it is a parameter: a reply, a boolean "the send succeeded", or a report state.
- Waiting is not modelled: `Task.Delay`, typing delays and the five-second waits for Mudae's reply. The current time is a parameter (`now`, in ticks).
- Concurrency is not modelled: `ConcurrentDictionary` races, `Task.Run` workers, the single `SemaphoreSlim` of MudaeStateManager.cs:16,98,146-149 and cancellation tokens. The model is sequential, one event at a time. At the level of one call, it keeps that a request is completed at most once and that the request entry is removed on every exit of `RefreshAsync`.
- `KakeraPower` and `KakeraConsumption` are not modelled as doubles. They are integer hundredths, because the report gives percentages and MudaeFarm/TimersUpParser.cs:89 divides by 100. `ClaimDelay`, `RollInterval` and `delay_seconds` are doubles. Only their presence is modelled: `claimdelay` and `rollinterval` take an argument the model does not parse.
- The string functions are ASCII-only. `ToLowerInvariant` and case-insensitive comparisons fold only A-Z. `\d` matches only ASCII digits, while .NET also accepts other Unicode decimal digits. `\s` and `char.IsWhiteSpace` are modelled exactly. The culture-sensitive `StartsWith(string)` calls (TimersUpParser.cs:35, CommandListener.cs:82, ConfigManager.cs:227-232) are ordinal prefix tests, so ignorable characters before the "**", "/" or "> " prefix, which a culture comparison skips, make the model's test fail.
- The user regexes of MudaeClaimCharacterFilter.cs are function parameters: whether a pattern compiles and what it matches. The alternation "(a)|(b)" is read as a disjunction of its items. The same holds for `_sectionRegex` (DiscordConfigurationSource.cs:173): a message's section match is given with the message.
- JSON (de)serialisation is not modelled: `JsonConvert`, `CreateSectionProvider` and `LoadConfigPartAsync` (ConfigManager.cs:374-423). `DeserializeOrCreate` yields "JSON text" as an opaque entry. Whether a JSON text deserialises is a given fact of the message: `contentParses` for a list message, `parses` for an information section's data. A text that does not deserialise throws, as `JsonConvert` does. A section's provider is the data it would be built from. `MudaeState.Clone` copies exactly the serialised fields, as the JSON round trip does.
- `GetChildKeys` (DiscordConfigurationSource.cs:337-343) only enumerates the providers' own keys, which come from JSON, so it is not modelled.
- The reload token is modelled only as a reload counter: neither `ConfigurationReloadToken` nor its subscribers are. A reload that is signalled increments the counter.
- The emotes and mentions in message text are not modelled: `GetChannelIds` and `GetUserIds` are lists given with each message.
- The reflection-built command dispatcher (CommandListener.cs:26-55) is an explicit command table. `claimdelay` and `rollinterval` leave the modelled settings unchanged. `wishlist` only reads. `status` records the status value instead of calling `SetStatusAsync`.
- The random parts are not modelled: `RandString`, and the random claim reply and its typing delays in AutoClaimer.cs:185-202.
- Names some of the source uses but does not declare are parameters or datatype fields:
  - `TryParseClaimSucceeded`, `TryParseClaimFailed`, `TryParseKakeraSucceeded` and `TryParseKakeraFailed` (MudaeClaimer.cs:207,213);
  - the two-argument `IsWished`;
  - the options section constants;
  - `TimersUpParser`'s fields `ClaimReset`, `KakeraPowerConsumption` and `LastUpdatedTime`.
- `CanKakeraDailyReset` in the refresh deadline (MudaeStateManager.cs:50) is read as `CanKakeraDaily`, because MudaeState.cs declares only the latter.
- The message histories are given in the order the client lists them. Paging through `GetMessagesAsync` and `GetMessagesEnumerable` is not modelled. `GetMessagesEnumerable` is not part of this model. It is read as yielding at most `_loadMessages` (1000) messages, so the configuration provider reads the first 1000 messages of the listing. ConfigManager.cs:195 reads all of them.
- Overflow in the gap between a server's reset time and `now` is not modelled. Ticks are unbounded integers. The interval computation (AutoRoller.cs:109) uses truncating division, as C# does. `--state.RollsLeft` (AutoRoller.cs:125) wraps as a 32-bit int.
- The state-level operations use the corrected definitions of the Findings table. This includes the report functions `TimersUpParser.LineEffect`, `ResetTime`, `Conclude` and `Report`, `ConfigGuild.Chosen`, and `ConfigProvider.ReadItem`, `Items` and `AfterReload`. The as-written definitions are modelled beside them, and lemmas relate each pair. Each member below is weaker than the source in that respect:
- TimersUpParser.ApplyLine: does not model the as-written reading of TimersUpParser.cs:24 (`new TimeSpan(0, h, m)`, h minutes and m seconds): it writes now plus h hours and m minutes, the corrected reading of the Findings table. `TimersUpParser.SpanAsWrittenDiffers` states how far apart the two are.
- TimersUpParser.ApplyClaimLine: does not model the as-written reading of TimersUpParser.cs:24 (`new TimeSpan(0, h, m)`, h minutes and m seconds): it writes now plus h hours and m minutes, the corrected reading of the Findings table. `TimersUpParser.SpanAsWrittenDiffers` states how far apart the two are.
- TimersUpParser.ApplyRollsResetLine: does not model the as-written reading of TimersUpParser.cs:24 (`new TimeSpan(0, h, m)`, h minutes and m seconds): it writes now plus h hours and m minutes, the corrected reading of the Findings table. `TimersUpParser.SpanAsWrittenDiffers` states how far apart the two are.
- TimersUpParser.ApplyKakeraLine: does not model the as-written reading of TimersUpParser.cs:24 (`new TimeSpan(0, h, m)`, h minutes and m seconds): it writes now plus h hours and m minutes, the corrected reading of the Findings table. `TimersUpParser.SpanAsWrittenDiffers` states how far apart the two are.
- TimersUpParser.ApplyReactLine: does not model the as-written reading of TimersUpParser.cs:24 (`new TimeSpan(0, h, m)`, h minutes and m seconds): it writes now plus h hours and m minutes, the corrected reading of the Findings table. `TimersUpParser.SpanAsWrittenDiffers` states how far apart the two are.
- TimersUpParser.ApplyDailyLine: does not model the as-written reading of TimersUpParser.cs:24 (`new TimeSpan(0, h, m)`, h minutes and m seconds): it writes now plus h hours and m minutes, the corrected reading of the Findings table. `TimersUpParser.SpanAsWrittenDiffers` states how far apart the two are.
- TimersUpParser.ApplyLines: does not model the as-written reading of TimersUpParser.cs:24 (`new TimeSpan(0, h, m)`, h minutes and m seconds): it writes now plus h hours and m minutes, the corrected reading of the Findings table. `TimersUpParser.SpanAsWrittenDiffers` states how far apart the two are.
- TimersUpParser.TryParse: does not model the as-written reading of TimersUpParser.cs:24 (`new TimeSpan(0, h, m)`, h minutes and m seconds): it writes now plus h hours and m minutes, the corrected reading of the Findings table. `TimersUpParser.SpanAsWrittenDiffers` states how far apart the two are. It also does not model the as-written interval of TimersUpParser.cs:128 (the absolute `RollsReset` ticks divided by `RollsLeft`): it uses the corrected (RollsReset - now) / RollsLeft of the Findings table. `TimersUpParser.AverageIntervalAsWrittenTooLarge` states how the two differ.
- TimersUpParser.FinishReport: does not model the as-written interval of TimersUpParser.cs:128 (the absolute `RollsReset` ticks divided by `RollsLeft`): it uses the corrected (RollsReset - now) / RollsLeft of the Findings table. `TimersUpParser.AverageIntervalAsWrittenTooLarge` states how the two differ.
- ConfigGuild.CheckGuild: does not model the as-written `profile == _credentials.SelectedProfile` of DiscordConfigurationSource.cs:95, where null differs from "": it compares profiles with null read as "", the corrected `ConfigGuild.Selects`. `ConfigGuild.NullProfileNotFoundAgain` states the as-written outcome.
- ConfigGuild.FindConfigurationGuild: chooses by the corrected `ConfigGuild.Selects`, so a null selected profile chooses a guild whose topic reads "Profile: ****", and an empty one chooses a guild with no profile line, where DiscordConfigurationSource.cs:95 chooses neither.
- ConfigProvider.CollectItems: does not model the as-written `Id = id` of DiscordConfigurationSource.cs:290: a wishlist-users message that mentions a user gives the mentioned user, not user 0. `ConfigProvider.UserItemMentionLost` states the as-written outcome.
- ConfigProvider.Provider.Reload: a wishlist-users reload stores the mentioned users (the corrected `ConfigProvider.UserItem`), where DiscordConfigurationSource.cs:290 stores user 0 for each mention.

## Findings

| source | as written | input that shows it | evidently intended | confidence | as-written member | corrected member |
|---|---|---|---|---|---|---|
| MudaeFarm/TimersUpParser.cs:24 | `new TimeSpan(0, hour, minute)` reads the hour group as minutes and the minute group as seconds | the report text "5min" gives five seconds | the hour group as hours and the minute group as minutes, so "5min" is five minutes | not executed | `TimersUpParser.TryParseTimeAsWritten`, with `TimersUpParser.SpanAsWrittenExample` and `TimersUpParser.SpanAsWrittenDiffers` | `TimersUpParser.TryParseTime`, with `TimersUpParser.TryParseTimeSpec` and `TimersUpParser.TryParseTimeBounded` |
| MudaeFarm/TimersUpParser.cs:128 | the average roll interval divides the absolute `RollsReset` ticks by `RollsLeft` | rolls left 10, reset at now + 1 hour, now past 10 ticks: the interval is longer than a tenth of an hour | the time left until the reset, divided by the rolls left | not executed | `TimersUpParser.AverageIntervalAsWritten`, with `TimersUpParser.AverageIntervalAsWrittenTooLarge` | `TimersUpParser.AverageInterval`, with `TimersUpParser.AverageIntervalSpec` |
| MudaeFarm/DiscordConfigurationSource.cs:290 | a wishlist-users message that mentions a user stores `Id = id`, and `id` is 0 after the failed `TryParse` | the message "<@42>" mentioning user 42 stores user 0 | the mentioned user, `mentionedUser` | not executed | `ConfigProvider.UserItemAsWritten`, with `ConfigProvider.UserMentionExample` | `ConfigProvider.UserItem`, with `ConfigProvider.UserItemMentionLost` and `ConfigProvider.UserItemAgrees` |
| MudaeFarm/DiscordConfigurationSource.cs:95 | with no selected profile, the topic written at line 124 is "Profile: ****", which reads back as the empty profile, so `profile == _credentials.SelectedProfile` compares "" with null | a null selected profile: the server created on one start is not found on the next, and a new one is created every time | a created server is found again on the next start; a null profile compares equal to the empty one it is written as | not executed | `ConfigGuild.SelectsAsWritten`, with `ConfigGuild.NullProfileNotFoundAgain` | `ConfigGuild.Selects`, with `ConfigGuild.CreatedTopicSelected` and `ConfigGuild.CreatedGuildChosen` |
