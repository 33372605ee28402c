/** Finding and naming the configuration server: the topic of its "information"
    channel records the owning user id and the profile, written when the server is
    created and read back on every start to pick the server among the user's own. */
module ConfigGuild {
  import opened Base
  import opened Strings

  // ---------------------------------------------------------------- the topic

  /** What one topic line sets. */
  datatype Field = NoField | UserId(id: Snowflake) | Profile(profile: string)

  /** The characters a topic value is trimmed of (the bolding marks and spaces). */
  const ValueTrim: set<char> := {' ', '*'}

  const UserIdKey: string := "mudaefarm"
  const ProfileKey: string := "profile"

  /** One line: split at the first ':' (a line without one sets nothing), the key
      trimmed and lower-cased, the value trimmed of spaces and '*'. A "mudaefarm" key
      whose value is not a ulong sets nothing. */
  function FieldOf(line: string): Field {
    var parts := SplitFirst(line, ':');
    if |parts| != 2 then NoField
    else FieldFrom(ToLower(Trim(parts[0])), TrimChars(parts[1], ValueTrim))
  }

  /** The switch on the lower-cased key. */
  function FieldFrom(key: string, value: string): Field {
    if key == UserIdKey && ParseULong(value).Some? then UserId(ParseULong(value).value)
    else if key == ProfileKey then Profile(value)
    else NoField
  }

  /** `userId` and `profile` of FindConfigurationGuild (null until a line sets them). */
  datatype TopicValues = TopicValues(userId: Option<Snowflake>, profile: Option<string>)

  function Apply(t: TopicValues, f: Field): TopicValues {
    match f
    case NoField => t
    case UserId(id) => t.(userId := Some(id))
    case Profile(p) => t.(profile := Some(p))
  }

  /** What each line sets, in order. */
  function FieldsOf(lines: seq<string>): (r: seq<Field>)
    ensures |r| == |lines|
    ensures forall k :: 0 <= k < |lines| ==> r[k] == FieldOf(lines[k])
  {
    if lines == [] then [] else [FieldOf(lines[0])] + FieldsOf(lines[1..])
  }

  /** The values after the given fields, each later one overriding earlier ones. */
  function Fold(fields: seq<Field>): TopicValues
    decreases |fields|
  {
    if fields == [] then TopicValues(None, None)
    else Apply(Fold(fields[..|fields| - 1]), fields[|fields| - 1])
  }

  function Values(lines: seq<string>): TopicValues {
    Fold(FieldsOf(lines))
  }

  function TopicLines(topic: string): seq<string> {
    SplitAll(topic, {'\n'})
  }

  /** The topic loop of FindConfigurationGuild. */
  method ParseTopic(topic: string) returns (userId: Option<Snowflake>, profile: Option<string>)
    ensures TopicValues(userId, profile) == Values(TopicLines(topic))
  {
    var lines := SplitAll(topic, {'\n'});
    ghost var all := FieldsOf(lines);
    userId := None;
    profile := None;
    for i := 0 to |lines|
      invariant TopicValues(userId, profile) == Fold(all[..i])
    {
      ghost var before := TopicValues(userId, profile);
      assert all[..i + 1][..i] == all[..i];
      var f := FieldOf(lines[i]);
      assert f == all[i];
      assert Fold(all[..i + 1]) == Apply(before, f);
      match f {
        case NoField =>
        case UserId(id) => userId := Some(id);
        case Profile(p) => profile := Some(p);
      }
      assert TopicValues(userId, profile) == Apply(before, f);
    }
    assert all[..|lines|] == all;
  }

  /** The profile read from the fields is none exactly when no field sets a profile. */
  lemma {:induction false} ProfileNone(fields: seq<Field>)
    ensures Fold(fields).profile.None? <==> forall k :: 0 <= k < |fields| ==> !fields[k].Profile?
    decreases |fields|
  {
    if fields != [] {
      var n := |fields| - 1;
      var prefix := fields[..n];
      ProfileNone(prefix);
      assert forall k :: 0 <= k < n ==> prefix[k] == fields[k];
      if fields[n].Profile? {
        assert Fold(fields).profile == Some(fields[n].profile);
      } else {
        assert Fold(fields).profile == Fold(prefix).profile;
      }
    }
  }

  /** Otherwise it is the value of the last field that sets a profile. */
  lemma {:induction false} ProfileLast(fields: seq<Field>)
    ensures Fold(fields).profile.Some? ==>
              exists k :: 0 <= k < |fields| && fields[k] == Profile(Fold(fields).profile.value)
                          && forall j :: k < j < |fields| ==> !fields[j].Profile?
    decreases |fields|
  {
    if fields != [] {
      var n := |fields| - 1;
      var prefix := fields[..n];
      if fields[n].Profile? {
        assert Fold(fields).profile == Some(fields[n].profile);
      } else {
        assert Fold(fields).profile == Fold(prefix).profile;
        ProfileLast(prefix);
        if Fold(prefix).profile.Some? {
          var k :| 0 <= k < n && prefix[k] == Profile(Fold(prefix).profile.value)
                   && forall j :: k < j < n ==> !prefix[j].Profile?;
          assert fields[k] == prefix[k];
          assert forall j :: k < j < |fields| ==> fields[j] == if j < n then prefix[j] else fields[n];
        }
      }
    }
  }

  /** Likewise for the user id: none exactly when no "mudaefarm" line with a ulong
      value occurs. */
  lemma {:induction false} UserIdNone(fields: seq<Field>)
    ensures Fold(fields).userId.None? <==> forall k :: 0 <= k < |fields| ==> !fields[k].UserId?
    decreases |fields|
  {
    if fields != [] {
      var n := |fields| - 1;
      var prefix := fields[..n];
      UserIdNone(prefix);
      assert forall k :: 0 <= k < n ==> prefix[k] == fields[k];
      if fields[n].UserId? {
        assert Fold(fields).userId == Some(fields[n].id);
      } else {
        assert Fold(fields).userId == Fold(prefix).userId;
      }
    }
  }

  /** Otherwise the last such line wins. */
  lemma {:induction false} UserIdLast(fields: seq<Field>)
    ensures Fold(fields).userId.Some? ==>
              exists k :: 0 <= k < |fields| && fields[k] == UserId(Fold(fields).userId.value)
                          && forall j :: k < j < |fields| ==> !fields[j].UserId?
    decreases |fields|
  {
    if fields != [] {
      var n := |fields| - 1;
      var prefix := fields[..n];
      if fields[n].UserId? {
        assert Fold(fields).userId == Some(fields[n].id);
      } else {
        assert Fold(fields).userId == Fold(prefix).userId;
        UserIdLast(prefix);
        if Fold(prefix).userId.Some? {
          var k :| 0 <= k < n && prefix[k] == UserId(Fold(prefix).userId.value)
                   && forall j :: k < j < n ==> !prefix[j].UserId?;
          assert fields[k] == prefix[k];
          assert forall j :: k < j < |fields| ==> fields[j] == if j < n then prefix[j] else fields[n];
        }
      }
    }
  }

  /** Lines read in order: the last line that sets the profile decides it. */
  lemma TopicProfile(lines: seq<string>)
    ensures Values(lines).profile.None? <==> forall k :: 0 <= k < |lines| ==> !FieldOf(lines[k]).Profile?
    ensures Values(lines).profile.Some? ==>
              exists k :: 0 <= k < |lines| && FieldOf(lines[k]) == Profile(Values(lines).profile.value)
                          && forall j :: k < j < |lines| ==> !FieldOf(lines[j]).Profile?
  {
    ProfileNone(FieldsOf(lines));
    ProfileLast(FieldsOf(lines));
  }

  // ------------------------------------------------------- the topic written

  /** `$"{s}"` of a nullable string: null is written as nothing. */
  function OrEmpty(s: Option<string>): string {
    if s.None? then "" else s.value
  }

  /** A profile that the topic carries unchanged: no line break, and no space or '*'
      at either end. */
  predicate CleanProfile(p: string) {
    (forall i :: 0 <= i < |p| ==> p[i] != '\n')
    && (p == [] || (p[0] !in ValueTrim && p[|p| - 1] !in ValueTrim))
  }

  const UserIdLabel: string := "MudaeFarm"
  const ProfileLabel: string := "Profile"
  const VersionLabel: string := "Version"

  function UserIdLine(id: Snowflake): string {
    UserIdLabel + ": **" + DecimalString(id) + "**"
  }

  function ProfileLine(profile: Option<string>): string {
    ProfileLabel + ": **" + OrEmpty(profile) + "**"
  }

  function VersionLine(version: string): string {
    VersionLabel + ": " + version
  }

  /** The topic CreateConfigurationGuild gives the "information" channel. */
  function CreatedTopic(id: Snowflake, profile: Option<string>, version: string): string {
    UserIdLine(id) + "\n" + ProfileLine(profile) + "\n" + VersionLine(version)
  }

  /** The three lines of a created topic. */
  lemma CreatedTopicLines(id: Snowflake, profile: Option<string>, version: string)
    requires CleanProfile(OrEmpty(profile))
    requires forall i :: 0 <= i < |version| ==> version[i] != '\n'
    ensures TopicLines(CreatedTopic(id, profile, version)) == [UserIdLine(id), ProfileLine(profile), VersionLine(version)]
  {
    var ps := [UserIdLine(id), ProfileLine(profile), VersionLine(version)];
    CreatedTopicJoin(id, profile, version);
    UserIdLineUnbroken(id);
    ProfileLineUnbroken(profile);
    VersionLineUnbroken(version);
    assert forall k, i :: 0 <= k < |ps| && 0 <= i < |ps[k]| ==> ps[k][i] != '\n';
    SplitAllJoin(ps, '\n');
  }

  lemma CreatedTopicJoin(id: Snowflake, profile: Option<string>, version: string)
    ensures Join(['\n'], [UserIdLine(id), ProfileLine(profile), VersionLine(version)]) == CreatedTopic(id, profile, version)
  {
    var ps := [UserIdLine(id), ProfileLine(profile), VersionLine(version)];
    assert Join(['\n'], ps[2..]) == VersionLine(version);
    assert Join(['\n'], ps[1..]) == ProfileLine(profile) + "\n" + VersionLine(version);
  }

  /** A user id line holds no line break. */
  lemma UserIdLineUnbroken(id: Snowflake)
    ensures forall i :: 0 <= i < |UserIdLine(id)| ==> UserIdLine(id)[i] != '\n'
  {
    var d := DecimalString(id);
    assert forall j :: 0 <= j < |d| ==> IsDigit(d[j]);
    assert UserIdLine(id) == UserIdLabel + ": **" + d + "**";
  }

  lemma ProfileLineUnbroken(profile: Option<string>)
    requires CleanProfile(OrEmpty(profile))
    ensures forall i :: 0 <= i < |ProfileLine(profile)| ==> ProfileLine(profile)[i] != '\n'
  {
  }

  lemma VersionLineUnbroken(version: string)
    requires forall i :: 0 <= i < |version| ==> version[i] != '\n'
    ensures forall i :: 0 <= i < |VersionLine(version)| ==> VersionLine(version)[i] != '\n'
  {
  }

  predicate NoColon(s: string) {
    forall i :: 0 <= i < |s| ==> s[i] != ':'
  }

  lemma LabelsHaveNoColon()
    ensures NoColon(UserIdLabel) && NoColon(ProfileLabel) && NoColon(VersionLabel)
  {
  }

  /** The pieces a label line splits into at its first ':'. */
  lemma LabelLine(tag: string, rest: string)
    requires NoColon(tag)
    ensures SplitFirst(tag + ": " + rest, ':') == [tag, " " + rest]
  {
    assert tag + ": " + rest == tag + [':'] + (" " + rest);
    SplitFirstAt(tag, ':', " " + rest);
  }

  lemma UserIdLabelKey()
    ensures ToLower(Trim(UserIdLabel)) == UserIdKey
  {
    TrimLowerWord(UserIdLabel, UserIdKey);
  }

  lemma ProfileLabelKey()
    ensures ToLower(Trim(ProfileLabel)) == ProfileKey
  {
    TrimLowerWord(ProfileLabel, ProfileKey);
  }

  lemma VersionLabelLower()
    ensures ToLower(Trim(VersionLabel)) == "version"
  {
    TrimLowerWord(VersionLabel, "version");
  }

  lemma VersionLabelKey()
    ensures ToLower(Trim(VersionLabel)) != UserIdKey && ToLower(Trim(VersionLabel)) != ProfileKey
  {
    VersionLabelLower();
    var key := ToLower(Trim(VersionLabel));
    assert |key| != |UserIdKey|;
    assert key[0] != ProfileKey[0];
  }

  /** A bolded value " **v**" reads back as v when v has no space or '*' at its ends. */
  lemma BoldValue(v: string)
    requires v == [] || (v[0] !in ValueTrim && v[|v| - 1] !in ValueTrim)
    ensures TrimChars(" **" + v + "**", ValueTrim) == v
  {
    TrimByPadded(" **", v, "**", c => c in ValueTrim);
  }

  /** The pieces a bolded label line splits into at its first ':'. */
  lemma BoldLine(tag: string, v: string)
    requires NoColon(tag)
    ensures SplitFirst(tag + ": **" + v + "**", ':') == [tag, " **" + v + "**"]
  {
    BoldRegroup(tag, v);
    LabelLine(tag, "**" + v + "**");
  }

  lemma BoldRegroup(tag: string, v: string)
    ensures tag + ": **" + v + "**" == tag + ": " + ("**" + v + "**")
    ensures " " + ("**" + v + "**") == " **" + v + "**"
  {
    assert ": **" == ": " + "**";
    assert " **" == " " + "**";
  }

  lemma UserIdLineParts(id: Snowflake)
    ensures SplitFirst(UserIdLine(id), ':') == [UserIdLabel, " **" + DecimalString(id) + "**"]
  {
    LabelsHaveNoColon();
    BoldLine(UserIdLabel, DecimalString(id));
  }

  lemma UserIdValue(id: Snowflake)
    ensures TrimChars(" **" + DecimalString(id) + "**", ValueTrim) == DecimalString(id)
  {
    var d := DecimalString(id);
    assert IsDigit(d[0]) && IsDigit(d[|d| - 1]);
    BoldValue(d);
  }

  lemma UserIdLineField(id: Snowflake)
    ensures FieldOf(UserIdLine(id)) == UserId(id)
  {
    UserIdLineParts(id);
    UserIdValue(id);
    UserIdLabelKey();
    ParseULongDecimal(id);
  }

  lemma ProfileLineParts(profile: Option<string>)
    ensures SplitFirst(ProfileLine(profile), ':') == [ProfileLabel, " **" + OrEmpty(profile) + "**"]
  {
    LabelsHaveNoColon();
    BoldLine(ProfileLabel, OrEmpty(profile));
  }

  lemma ProfileLineField(profile: Option<string>)
    requires CleanProfile(OrEmpty(profile))
    ensures FieldOf(ProfileLine(profile)) == Profile(OrEmpty(profile))
  {
    ProfileLineParts(profile);
    BoldValue(OrEmpty(profile));
    ProfileLabelKey();
  }

  lemma VersionLineField(version: string)
    ensures FieldOf(VersionLine(version)) == NoField
  {
    LabelsHaveNoColon();
    LabelLine(VersionLabel, version);
    VersionLabelKey();
  }

  lemma CreatedTopicFields(id: Snowflake, profile: Option<string>, version: string)
    requires CleanProfile(OrEmpty(profile))
    requires forall i :: 0 <= i < |version| ==> version[i] != '\n'
    ensures FieldsOf(TopicLines(CreatedTopic(id, profile, version))) == [UserId(id), Profile(OrEmpty(profile)), NoField]
  {
    CreatedTopicLines(id, profile, version);
    UserIdLineField(id);
    ProfileLineField(profile);
    VersionLineField(version);
  }

  /** Reading a created topic back gives the user id and the profile as written. */
  lemma CreatedTopicValues(id: Snowflake, profile: Option<string>, version: string)
    requires CleanProfile(OrEmpty(profile))
    requires forall i :: 0 <= i < |version| ==> version[i] != '\n'
    ensures Values(TopicLines(CreatedTopic(id, profile, version))) == TopicValues(Some(id), Some(OrEmpty(profile)))
  {
    CreatedTopicFields(id, profile, version);
    FoldCreated(id, OrEmpty(profile));
  }

  lemma FoldCreated(id: Snowflake, p: string)
    ensures Fold([UserId(id), Profile(p), NoField]) == TopicValues(Some(id), Some(p))
  {
    var fs := [UserId(id), Profile(p), NoField];
    assert fs[..2] == [UserId(id), Profile(p)];
    assert fs[..2][..1] == [UserId(id)];
    assert fs[..2][..1][..0] == [];
    assert Fold([UserId(id)]) == TopicValues(Some(id), None);
    assert Fold(fs[..2]) == TopicValues(Some(id), Some(p));
  }

  // ---------------------------------------------------------- choosing the guild

  /** The selection test of FindConfigurationGuild as written: `userId` must be the
      current user and `profile` must equal the selected profile, null included. */
  predicate SelectsAsWritten(v: TopicValues, currentId: Snowflake, selected: Option<string>) {
    v.userId == Some(currentId) && v.profile == selected
  }

  /** The selection test with a null profile read as the empty profile it is written
      as. */
  predicate Selects(v: TopicValues, currentId: Snowflake, selected: Option<string>) {
    v.userId == Some(currentId) && OrEmpty(v.profile) == OrEmpty(selected)
  }

  /** With no selected profile, the server CreateConfigurationGuild sets up is not
      recognised again: its topic reads back the empty profile, which is not null. */
  lemma NullProfileNotFoundAgain(id: Snowflake, version: string)
    requires forall i :: 0 <= i < |version| ==> version[i] != '\n'
    ensures !SelectsAsWritten(Values(TopicLines(CreatedTopic(id, None, version))), id, None)
    ensures Selects(Values(TopicLines(CreatedTopic(id, None, version))), id, None)
  {
    CreatedTopicValues(id, None, version);
  }

  /** A created topic is recognised by the user and profile that created it. */
  lemma CreatedTopicSelected(id: Snowflake, profile: Option<string>, version: string)
    requires CleanProfile(OrEmpty(profile))
    requires forall i :: 0 <= i < |version| ==> version[i] != '\n'
    ensures Selects(Values(TopicLines(CreatedTopic(id, profile, version))), id, profile)
  {
    CreatedTopicValues(id, profile, version);
  }

  datatype TextChannel = TextChannel(name: string, topic: Option<string>)
  datatype Guild = Guild(id: Snowflake, ownerId: Snowflake, textChannels: seq<TextChannel>)

  const InformationChannel: string := "information"

  /** `TextChannels.FirstOrDefault(c => c.Name == "information")?.Topic ?? ""`. */
  function InformationTopic(channels: seq<TextChannel>): string {
    if channels == [] then ""
    else if channels[0].name == InformationChannel then OrEmpty(channels[0].topic)
    else InformationTopic(channels[1..])
  }

  /** The topic read is the first "information" channel's, null read as empty, and
      empty when there is no such channel. */
  lemma {:induction false} InformationTopicSpec(channels: seq<TextChannel>, k: nat)
    ensures (forall j :: 0 <= j < |channels| ==> channels[j].name != InformationChannel) ==>
              InformationTopic(channels) == ""
    ensures k < |channels| && channels[k].name == InformationChannel
            && (forall j :: 0 <= j < k ==> channels[j].name != InformationChannel) ==>
              InformationTopic(channels) == OrEmpty(channels[k].topic)
    decreases |channels|
  {
    if channels != [] && channels[0].name != InformationChannel {
      var tail := channels[1..];
      assert forall j :: 1 <= j < |channels| ==> tail[j - 1] == channels[j];
      InformationTopicSpec(tail, if k == 0 then 0 else k - 1);
    }
  }

  /** Whether FindConfigurationGuild takes this guild. */
  predicate Chosen(g: Guild, currentId: Snowflake, selected: Option<string>) {
    g.ownerId == currentId && Selects(Values(TopicLines(InformationTopic(g.textChannels))), currentId, selected)
  }

  /** The loop body of FindConfigurationGuild: a guild of another owner is skipped
      without reading its channels. */
  method CheckGuild(g: Guild, currentId: Snowflake, selected: Option<string>) returns (chosen: bool)
    ensures chosen == Chosen(g, currentId, selected)
  {
    if g.ownerId != currentId {
      return false;
    }
    var topic := InformationTopic(g.textChannels);
    var userId, profile := ParseTopic(topic);
    chosen := userId == Some(currentId) && OrEmpty(profile) == OrEmpty(selected);
  }

  /** FindConfigurationGuild: the first guild, in the order the client lists them, that
      is owned by the current user and whose "information" topic names that user and
      the selected profile; none exactly when no guild is chosen. */
  method FindConfigurationGuild(guilds: seq<Guild>, currentId: Snowflake, selected: Option<string>)
    returns (r: Option<Guild>)
    ensures r.None? <==> forall j :: 0 <= j < |guilds| ==> !Chosen(guilds[j], currentId, selected)
    ensures r.Some? ==> exists k :: 0 <= k < |guilds| && guilds[k] == r.value
                                    && Chosen(guilds[k], currentId, selected)
                                    && forall j :: 0 <= j < k ==> !Chosen(guilds[j], currentId, selected)
  {
    for i := 0 to |guilds|
      invariant forall j :: 0 <= j < i ==> !Chosen(guilds[j], currentId, selected)
    {
      var chosen := CheckGuild(guilds[i], currentId, selected);
      if chosen {
        return Some(guilds[i]);
      }
      assert !Chosen(guilds[i], currentId, selected);
      assert forall j :: 0 <= j < i + 1 ==> !Chosen(guilds[j], currentId, selected);
    }
    r := None;
  }

  /** A guild the user created for the selected profile is chosen on the next start,
      so the search does not come back empty while the guild is listed. */
  lemma CreatedGuildChosen(g: Guild, currentId: Snowflake, selected: Option<string>, version: string)
    requires g.ownerId == currentId
    requires InformationTopic(g.textChannels) == CreatedTopic(currentId, selected, version)
    requires CleanProfile(OrEmpty(selected))
    requires forall i :: 0 <= i < |version| ==> version[i] != '\n'
    ensures Chosen(g, currentId, selected)
  {
    CreatedTopicSelected(currentId, selected, version);
  }

  // ------------------------------------------------------------ the guild name

  const BaseName: string := "MudaeFarm"

  /** CreateConfigurationGuild's server name: "MudaeFarm" for a null, empty or
      "default" (any case) profile, otherwise "MudaeFarm (<profile>)". */
  function GuildName(profile: Option<string>): string {
    if profile.None? || profile.value == [] || ToLower(profile.value) == "default" then BaseName
    else BaseName + " (" + profile.value + ")"
  }

  /** The plain name is used exactly for the default profile, and any other profile
      can be read back from the name. */
  lemma GuildNameSpec(profile: Option<string>)
    ensures GuildName(profile) == BaseName <==>
              profile.None? || profile.value == [] || ToLower(profile.value) == "default"
    ensures GuildName(profile) != BaseName ==>
              var n := GuildName(profile);
              |n| >= |BaseName| + 3 && n[..|BaseName| + 2] == BaseName + " ("
              && n[|BaseName| + 2..|n| - 1] == profile.value && n[|n| - 1] == ')'
  {
    if !(profile.None? || profile.value == [] || ToLower(profile.value) == "default") {
      var n := GuildName(profile);
      assert |n| > |BaseName|;
      assert n[|BaseName| + 2..|n| - 1] == profile.value;
    }
  }
}
