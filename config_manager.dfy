/** The Discord-server configuration: wishlist globs compiled into one anchored,
    case-insensitive alternation, the "> key" configuration parts of the
    information channel, and the bot-channel list. */
module ConfigManager {
  import opened Base
  import opened Strings

  // ------------------------------------------------------------------- globs

  /** One element of the regex GlobToRegex builds between `^` and `$`: `.*`, `.`
      (which the Singleline option lets match any character) or an escaped literal. */
  datatype Token = Literal(c: char) | AnyString | AnyChar

  function TokenOf(c: char): Token {
    if c == '*' then AnyString else if c == '?' then AnyChar else Literal(c)
  }

  /** GlobToRegex: Regex.Escape escapes every character, then `\*` becomes `.*` and
      `\?` becomes `.`; every other character stays a literal. */
  function GlobToRegex(g: string): (r: seq<Token>)
    ensures |r| == |g|
    ensures forall i :: 0 <= i < |g| ==> r[i] == TokenOf(g[i])
  {
    if g == [] then [] else [TokenOf(g[0])] + GlobToRegex(g[1..])
  }

  /** The tokens match the whole of `s`, literals ignoring case. */
  predicate MatchesAll(p: seq<Token>, s: string)
    decreases |p| + |s|
  {
    if p == [] then s == []
    else if p[0].AnyString? then MatchesAll(p[1..], s) || (s != [] && MatchesAll(p, s[1..]))
    else if p[0].AnyChar? then s != [] && MatchesAll(p[1..], s[1..])
    else s != [] && LowerChar(s[0]) == LowerChar(p[0].c) && MatchesAll(p[1..], s[1..])
  }

  /** `^…$` without the Multiline option: `$` matches at the end and also before a
      final '\n'. */
  predicate Anchored(p: seq<Token>, s: string) {
    MatchesAll(p, s) || (s != [] && s[|s| - 1] == '\n' && MatchesAll(p, s[..|s| - 1]))
  }

  predicate NoWildcards(g: string) {
    forall i :: 0 <= i < |g| ==> g[i] != '*' && g[i] != '?'
  }

  lemma LowerCons(a: string, b: string)
    requires a != [] && b != []
    ensures ToLower(a) == ToLower(b) <==> LowerChar(a[0]) == LowerChar(b[0]) && ToLower(a[1..]) == ToLower(b[1..])
  {
    assert ToLower(a) == [LowerChar(a[0])] + ToLower(a[1..]);
    assert ToLower(b) == [LowerChar(b[0])] + ToLower(b[1..]);
    if ToLower(a) == ToLower(b) {
      assert ToLower(a)[1..] == ToLower(a[1..]);
      assert ToLower(b)[1..] == ToLower(b[1..]);
    }
  }

  /** A glob without wildcards matches exactly the strings equal to it ignoring case. */
  lemma {:induction false} LiteralGlob(g: string, s: string)
    requires NoWildcards(g)
    ensures MatchesAll(GlobToRegex(g), s) <==> ToLower(s) == ToLower(g)
    decreases |g|
  {
    if g == [] {
      assert |ToLower(s)| == |s|;
    } else {
      assert GlobToRegex(g)[1..] == GlobToRegex(g[1..]);
      assert NoWildcards(g[1..]) by {
        forall i | 0 <= i < |g[1..]| ensures g[1..][i] != '*' && g[1..][i] != '?' {
          assert g[1..][i] == g[i + 1];
        }
      }
      if s != [] {
        LiteralGlob(g[1..], s[1..]);
        LowerCons(s, g);
      } else {
        assert |ToLower(g)| == |g|;
      }
    }
  }

  /** A lone `*` matches every string. */
  lemma {:induction false} StarMatchesAll(s: string)
    ensures MatchesAll(GlobToRegex("*"), s)
    decreases |s|
  {
    assert GlobToRegex("*") == [AnyString];
    if s != [] {
      StarMatchesAll(s[1..]);
    }
  }

  /** A lone `?` matches exactly the one-character strings. */
  lemma QuestionMatchesOne(s: string)
    ensures MatchesAll(GlobToRegex("?"), s) <==> |s| == 1
  {
    assert GlobToRegex("?") == [AnyChar];
    if s != [] {
      assert MatchesAll([], s[1..]) <==> |s| == 1;
    }
  }

  /** A literal glob followed by `*` matches the strings it begins, ignoring case. */
  lemma {:induction false} PrefixGlob(g: string, s: string)
    requires NoWildcards(g)
    ensures MatchesAll(GlobToRegex(g + "*"), s) <==> |g| <= |s| && ToLower(s[..|g|]) == ToLower(g)
    decreases |g|
  {
    if g == [] {
      assert g + "*" == "*";
      StarMatchesAll(s);
    } else {
      assert (g + "*")[1..] == g[1..] + "*";
      assert GlobToRegex(g + "*")[1..] == GlobToRegex(g[1..] + "*");
      assert GlobToRegex(g + "*")[0] == Literal(g[0]);
      assert NoWildcards(g[1..]) by {
        forall i | 0 <= i < |g[1..]| ensures g[1..][i] != '*' && g[1..][i] != '?' {
          assert g[1..][i] == g[i + 1];
        }
      }
      if s != [] {
        PrefixGlob(g[1..], s[1..]);
        if |g| <= |s| {
          assert s[..|g|][1..] == s[1..][..|g| - 1];
          assert s[..|g|][0] == s[0];
          LowerCons(s[..|g|], g);
        }
      }
    }
  }

  // --------------------------------------------------------------- wishlists

  /** A message of a configuration channel. */
  datatype Message = Message(author: Snowflake, content: string)

  predicate IsBlank(s: string) {
    forall i :: 0 <= i < |s| ==> IsWhiteSpace(s[i])
  }

  /** A message LoadMessagesAsync keeps: one of the user's own, with some non-blank
      content. */
  predicate Kept(m: Message, self: Snowflake) { m.author == self && !IsBlank(m.content) }

  /** LoadMessagesAsync: from a history listed newest first, the user's own messages
      with some non-blank content, in chronological order. */
  function LoadMessages(history: seq<Message>, self: Snowflake): (r: seq<Message>)
    ensures forall i :: 0 <= i < |r| ==> Kept(r[i], self) && r[i] in history
    ensures forall m :: m in history && Kept(m, self) ==> m in r
  {
    if history == [] then []
    else
      var older := LoadMessages(history[1..], self);
      var m := history[0];
      if Kept(m, self) then older + [m] else older
  }

  /** The positions in `history[i..]` of the kept messages, the largest (the oldest)
      first. */
  function KeptFrom(history: seq<Message>, self: Snowflake, i: nat): (ix: seq<nat>)
    requires i <= |history|
    ensures forall t :: 0 <= t < |ix| ==> i <= ix[t] < |history| && Kept(history[ix[t]], self)
    ensures forall a, b :: 0 <= a < b < |ix| ==> ix[a] > ix[b]
    ensures forall j :: i <= j < |history| && Kept(history[j], self) ==> j in ix
    decreases |history| - i
  {
    if i == |history| then []
    else KeptFrom(history, self, i + 1) + (if Kept(history[i], self) then [i] else [])
  }

  /** The loaded messages are exactly the kept ones, each once, in the order of their
      positions from the oldest to the newest. */
  lemma {:induction false} LoadMessagesFrom(history: seq<Message>, self: Snowflake, i: nat)
    requires i <= |history|
    ensures var r := LoadMessages(history[i..], self);
            var ix := KeptFrom(history, self, i);
            |r| == |ix| && forall t :: 0 <= t < |r| ==> r[t] == history[ix[t]]
    decreases |history| - i
  {
    if i < |history| {
      LoadMessagesFrom(history, self, i + 1);
      assert history[i..][1..] == history[i + 1..];
    }
  }

  lemma LoadMessagesOrder(history: seq<Message>, self: Snowflake)
    ensures var r := LoadMessages(history, self);
            var ix := KeptFrom(history, self, 0);
            |r| == |ix| && forall t :: 0 <= t < |r| ==> r[t] == history[ix[t]]
  {
    LoadMessagesFrom(history, self, 0);
    assert history[0..] == history;
  }

  /** The messages come out oldest first: the message listed first (the newest) ends
      up last. */
  lemma LoadMessagesNewestLast(history: seq<Message>, self: Snowflake)
    requires history != [] && Kept(history[0], self)
    ensures LoadMessages(history, self)[|LoadMessages(history, self)| - 1] == history[0]
  {
  }

  /** The line entries of one message: every non-empty '\n'-separated line, trimmed and
      lower-cased. */
  function LineEntries(content: string): set<string> {
    set l | l in SplitNonEmpty(content, {'\n'}) :: ToLower(Trim(l))
  }

  function Entries(contents: seq<string>): set<string> {
    if contents == [] then {} else LineEntries(contents[0]) + Entries(contents[1..])
  }

  lemma {:induction false} EntriesSpec(contents: seq<string>, e: string)
    ensures e in Entries(contents) <==> exists i :: 0 <= i < |contents| && e in LineEntries(contents[i])
  {
    if contents != [] {
      EntriesSpec(contents[1..], e);
      assert forall i :: 1 <= i < |contents| ==> contents[i] == contents[1..][i - 1];
      if e in Entries(contents[1..]) {
        var i :| 0 <= i < |contents[1..]| && e in LineEntries(contents[1..][i]);
        assert e in LineEntries(contents[i + 1]);
      }
    }
  }

  /** CreateWishlistRegex: null for no messages, otherwise the anchored globs of the
      deduplicated entries, as the alternatives of one regex. */
  function CreateWishlistRegex(contents: seq<string>): (r: Option<set<seq<Token>>>)
    ensures r.None? <==> contents == []
  {
    if contents == [] then None
    else Some(set e | e in Entries(contents) :: GlobToRegex(e))
  }

  /** IsMatch of the wishlist regex (`regex?.IsMatch(s) == true`): some alternative
      matches; a null regex matches nothing. */
  predicate WishlistMatch(r: Option<set<seq<Token>>>, s: string) {
    r.Some? && exists p :: p in r.value && Anchored(p, s)
  }

  /** A wishlist matches a name iff it has messages and one of its trimmed, lower-cased
      lines matches it as a glob. */
  lemma WishlistMatchSpec(contents: seq<string>, s: string)
    ensures WishlistMatch(CreateWishlistRegex(contents), s)
            <==> exists i, l :: 0 <= i < |contents| && l in SplitNonEmpty(contents[i], {'\n'})
                                && Anchored(GlobToRegex(ToLower(Trim(l))), s)
  {
    if WishlistMatch(CreateWishlistRegex(contents), s) {
      WishlistMatchLine(contents, s);
    }
    if exists i, l :: 0 <= i < |contents| && l in SplitNonEmpty(contents[i], {'\n'})
                      && Anchored(GlobToRegex(ToLower(Trim(l))), s) {
      var i, l :| 0 <= i < |contents| && l in SplitNonEmpty(contents[i], {'\n'})
                  && Anchored(GlobToRegex(ToLower(Trim(l))), s);
      LineMatchesWishlist(contents, s, i, l);
    }
  }

  /** A match comes from one of the lines. */
  lemma WishlistMatchLine(contents: seq<string>, s: string)
    requires WishlistMatch(CreateWishlistRegex(contents), s)
    ensures exists i, l :: 0 <= i < |contents| && l in SplitNonEmpty(contents[i], {'\n'})
                           && Anchored(GlobToRegex(ToLower(Trim(l))), s)
  {
    var p :| p in CreateWishlistRegex(contents).value && Anchored(p, s);
    var e :| e in Entries(contents) && p == GlobToRegex(e);
    EntriesSpec(contents, e);
    var i :| 0 <= i < |contents| && e in LineEntries(contents[i]);
    var l :| l in SplitNonEmpty(contents[i], {'\n'}) && e == ToLower(Trim(l));
  }

  /** A line that matches makes the wishlist match. */
  lemma LineMatchesWishlist(contents: seq<string>, s: string, i: nat, l: string)
    requires i < |contents| && l in SplitNonEmpty(contents[i], {'\n'})
    requires Anchored(GlobToRegex(ToLower(Trim(l))), s)
    ensures WishlistMatch(CreateWishlistRegex(contents), s)
  {
    var e := ToLower(Trim(l));
    assert e in LineEntries(contents[i]);
    EntriesSpec(contents, e);
    assert GlobToRegex(e) in CreateWishlistRegex(contents).value;
  }

  // ------------------------------------------------------- configuration parts

  /** A configuration part: the message it came from (by position) and its value. */
  datatype ConfigPart = ConfigPart(index: nat, value: string)

  const LineBreaks: set<char> := {'\r', '\n'}

  predicate IsConfigMessage(content: string) { StartsWith(content, Quote) }

  /** The characters of a prefix free of separators stay in the first piece. */
  lemma {:induction false} SplitAllKeepsPrefix(s: string, p: string, seps: set<char>)
    requires StartsWith(s, p)
    requires forall i :: 0 <= i < |p| ==> p[i] !in seps
    ensures StartsWith(SplitAll(s, seps)[0], p)
    decreases |p|
  {
    if p != [] {
      assert s[0] == p[0];
      assert StartsWith(s[1..], p[1..]);
      SplitAllKeepsPrefix(s[1..], p[1..], seps);
    }
  }

  /** The lines of a configuration message; the first starts with "> ". */
  function PartLines(content: string): (lines: seq<string>)
    requires IsConfigMessage(content)
    ensures lines != [] && |lines[0]| >= 2 && lines[0][..2] == Quote
  {
    assert NoLineBreak(Quote);
    SplitAllKeepsPrefix(content, Quote, LineBreaks);
    var all := SplitAll(content, LineBreaks);
    assert RemoveEmpty(all) == [all[0]] + RemoveEmpty(all[1..]);
    SplitNonEmpty(content, LineBreaks)
  }

  /** The key: the first line without its "> ", trimmed and lower-cased. */
  function PartKey(content: string): string
    requires IsConfigMessage(content)
  {
    ToLower(Trim(PartLines(content)[0][2..]))
  }

  /** The lines that do not open or close a code fence. */
  function NotFences(lines: seq<string>): (r: seq<string>)
    ensures forall k :: 0 <= k < |r| ==> r[k] in lines && !StartsWith(r[k], "```")
  {
    if lines == [] then []
    else if StartsWith(lines[0], "```") then NotFences(lines[1..])
    else [lines[0]] + NotFences(lines[1..])
  }

  /** The value: the remaining lines outside code fences, joined by "\n". */
  function PartValue(content: string): string
    requires IsConfigMessage(content)
  {
    Join("\n", NotFences(PartLines(content)[1..]))
  }

  /** A message read as a configuration part: its key and value. */
  datatype Part = Part(key: string, value: string)

  /** The part a message holds, or None for a message that is not a configuration part. */
  function PartOf(content: string): Option<Part> {
    if IsConfigMessage(content) then Some(Part(PartKey(content), PartValue(content))) else None
  }

  /** The part each message holds, in order. */
  function PartsOf(contents: seq<string>): (r: seq<Option<Part>>)
    ensures |r| == |contents|
    ensures forall k :: 0 <= k < |contents| ==> r[k] == PartOf(contents[k])
  {
    if contents == [] then [] else [PartOf(contents[0])] + PartsOf(contents[1..])
  }

  /** One part added to the dictionary: a part whose key is already present is
      skipped. */
  function AddPart(d: map<string, ConfigPart>, n: nat, p: Option<Part>): map<string, ConfigPart> {
    if p.None? || p.value.key in d then d else d[p.value.key := ConfigPart(n, p.value.value)]
  }

  /** The dictionary after the parts: a part whose key is already present is skipped,
      so the chronologically first part for a key wins. */
  function Collect(parts: seq<Option<Part>>): map<string, ConfigPart>
    decreases |parts|
  {
    if parts == [] then map[]
    else
      var n := |parts| - 1;
      AddPart(Collect(parts[..n]), n, parts[n])
  }

  function Parts(contents: seq<string>): map<string, ConfigPart> {
    Collect(PartsOf(contents))
  }

  /** One more part: the step the loop takes. */
  lemma CollectSnoc(parts: seq<Option<Part>>, p: Option<Part>)
    ensures Collect(parts + [p]) == AddPart(Collect(parts), |parts|, p)
  {
    assert (parts + [p])[..|parts|] == parts;
  }

  /** The configuration-part loop of ReloadChannelAsync. */
  method ParseParts(contents: seq<string>) returns (dict: map<string, ConfigPart>)
    ensures dict == Parts(contents)
  {
    dict := map[];
    for i := 0 to |contents|
      invariant dict == Parts(contents[..i])
    {
      var d := ReadPart(dict, i, contents[i]);
      PartsStep(contents, i, dict, d);
      dict := d;
    }
    assert contents[..|contents|] == contents;
  }

  /** One turn of that loop: a message that is not a configuration part, or whose key
      is present, leaves the dictionary as it is. */
  method ReadPart(dict: map<string, ConfigPart>, i: nat, c: string) returns (d: map<string, ConfigPart>)
    ensures d == AddPart(dict, i, PartOf(c))
  {
    if !StartsWith(c, Quote) {
      return dict;
    }
    var key := PartKey(c);
    var value := PartValue(c);
    AddConfigPart(dict, i, c, key, value);
    if key in dict {
      return dict;
    }
    d := dict[key := ConfigPart(i, value)];
  }

  lemma AddConfigPart(dict: map<string, ConfigPart>, i: nat, c: string, key: string, value: string)
    requires IsConfigMessage(c) && key == PartKey(c) && value == PartValue(c)
    ensures AddPart(dict, i, PartOf(c)) == if key in dict then dict else dict[key := ConfigPart(i, value)]
  {
    AddSome(dict, i, PartOf(c));
  }

  lemma AddSome(dict: map<string, ConfigPart>, i: nat, p: Option<Part>)
    requires p.Some?
    ensures AddPart(dict, i, p) == if p.value.key in dict then dict else dict[p.value.key := ConfigPart(i, p.value.value)]
  {
  }

  /** The loop's step: the dictionary of one more message. */
  lemma PartsStep(contents: seq<string>, i: nat, dict: map<string, ConfigPart>, d: map<string, ConfigPart>)
    requires i < |contents| && dict == Parts(contents[..i]) && d == AddPart(dict, i, PartOf(contents[i]))
    ensures d == Parts(contents[..i + 1])
  {
    PartsOfSnoc(contents, i);
    CollectSnoc(PartsOf(contents[..i]), PartOf(contents[i]));
  }

  /** The parts of one more message. */
  lemma PartsOfSnoc(contents: seq<string>, i: nat)
    requires i < |contents|
    ensures PartsOf(contents[..i + 1]) == PartsOf(contents[..i]) + [PartOf(contents[i])]
  {
  }

  /** Some part before position `i` has key `k`. */
  predicate HasKeyBefore(parts: seq<Option<Part>>, i: nat, k: string)
    requires i <= |parts|
  {
    exists j :: 0 <= j < i && parts[j].Some? && parts[j].value.key == k
  }

  /** A key is present iff some part has it. */
  lemma {:induction false} CollectKeys(parts: seq<Option<Part>>, k: string)
    ensures k in Collect(parts) <==> HasKeyBefore(parts, |parts|, k)
    decreases |parts|
  {
    if parts != [] {
      var n := |parts| - 1;
      var prefix := parts[..n];
      CollectKeys(prefix, k);
      assert forall j :: 0 <= j < n ==> prefix[j] == parts[j];
    }
  }

  /** A present key holds the position and value of the first part with that key. */
  lemma {:induction false} CollectFirstWins(parts: seq<Option<Part>>, k: string)
    requires k in Collect(parts)
    ensures var i := Collect(parts)[k].index;
            i < |parts| && parts[i] == Some(Part(k, Collect(parts)[k].value))
            && !HasKeyBefore(parts, i, k)
    decreases |parts|
  {
    var n := |parts| - 1;
    var prefix := parts[..n];
    assert forall j :: 0 <= j < n ==> prefix[j] == parts[j];
    if k in Collect(prefix) {
      CollectFirstWins(prefix, k);
      var i := Collect(prefix)[k].index;
      assert !HasKeyBefore(prefix, i, k);
    } else {
      CollectKeys(prefix, k);
    }
  }

  /** ReloadChannelAsync's configuration parts: a key is present exactly when some
      configuration message has it, and then it holds the position and value of the
      first such message. */
  lemma PartsSpec(contents: seq<string>, k: string)
    ensures k in Parts(contents)
            <==> exists j :: 0 <= j < |contents| && IsConfigMessage(contents[j]) && PartKey(contents[j]) == k
    ensures k in Parts(contents) ==>
              var i := Parts(contents)[k].index;
              i < |contents| && IsConfigMessage(contents[i]) && PartKey(contents[i]) == k
              && Parts(contents)[k].value == PartValue(contents[i])
              && forall j :: 0 <= j < i && IsConfigMessage(contents[j]) ==> PartKey(contents[j]) != k
  {
    var all := PartsOf(contents);
    CollectKeys(all, k);
    if k in Parts(contents) {
      CollectFirstWins(all, k);
    }
  }

  /** The contents of messages, in order. */
  function Contents(ms: seq<Message>): (r: seq<string>)
    ensures |r| == |ms| && forall t :: 0 <= t < |ms| ==> r[t] == ms[t].content
  {
    if ms == [] then [] else [ms[0].content] + Contents(ms[1..])
  }

  /** A message that is a configuration part with key `k`. */
  predicate HasPart(m: Message, k: string) { IsConfigMessage(m.content) && PartKey(m.content) == k }

  /** The loaded position of a kept message of the history. */
  lemma LoadedPosition(history: seq<Message>, self: Snowflake, j: nat) returns (t: nat)
    requires j < |history| && Kept(history[j], self)
    ensures t < |LoadMessages(history, self)|
    ensures Contents(LoadMessages(history, self))[t] == history[j].content
  {
    LoadMessagesOrder(history, self);
    var ix := KeptFrom(history, self, 0);
    t :| 0 <= t < |ix| && ix[t] == j;
  }

  /** The history position of a loaded message. */
  lemma LoadedAt(history: seq<Message>, self: Snowflake, t: nat) returns (j: nat)
    requires t < |LoadMessages(history, self)|
    ensures |KeptFrom(history, self, 0)| == |LoadMessages(history, self)|
    ensures j < |history| && Kept(history[j], self) && KeptFrom(history, self, 0)[t] == j
    ensures Contents(LoadMessages(history, self))[t] == history[j].content
  {
    LoadMessagesOrder(history, self);
    j := KeptFrom(history, self, 0)[t];
  }

  /** A kept message further down the history than a loaded one is loaded before it. */
  lemma OlderLoadedEarlier(history: seq<Message>, self: Snowflake, t: nat, j': nat) returns (u: nat)
    requires t < |LoadMessages(history, self)|
    requires j' < |history| && Kept(history[j'], self)
    requires t < |KeptFrom(history, self, 0)| && KeptFrom(history, self, 0)[t] < j'
    ensures u < t && Contents(LoadMessages(history, self))[u] == history[j'].content
  {
    LoadMessagesOrder(history, self);
    var ix := KeptFrom(history, self, 0);
    u :| 0 <= u < |ix| && ix[u] == j';
    DecreasingOrder(ix, t, u);
  }

  /** In a strictly decreasing sequence, a larger element comes earlier. */
  lemma DecreasingOrder(ix: seq<nat>, t: nat, u: nat)
    requires forall a, b :: 0 <= a < b < |ix| ==> ix[a] > ix[b]
    requires t < |ix| && u < |ix| && ix[t] < ix[u]
    ensures u < t
  {
  }

  /** The general configuration channel, read from its history: a key is present
      exactly when some kept message has it. */
  lemma PartPresent(history: seq<Message>, self: Snowflake, k: string)
    ensures k in Parts(Contents(LoadMessages(history, self)))
            <==> exists j :: 0 <= j < |history| && Kept(history[j], self) && HasPart(history[j], k)
  {
    var contents := Contents(LoadMessages(history, self));
    PartsSpec(contents, k);
    if k in Parts(contents) {
      var i :| 0 <= i < |contents| && IsConfigMessage(contents[i]) && PartKey(contents[i]) == k;
      var j := LoadedAt(history, self, i);
    }
    if exists j :: 0 <= j < |history| && Kept(history[j], self) && HasPart(history[j], k) {
      var j :| 0 <= j < |history| && Kept(history[j], self) && HasPart(history[j], k);
      var t := LoadedPosition(history, self, j);
    }
  }

  /** No kept message further down the history than the one loaded at `i` is a
      configuration part with key `k`, when none loaded before `i` is. */
  lemma OlderHaveOtherKeys(history: seq<Message>, self: Snowflake, k: string, i: nat, j: nat)
    requires i < |LoadMessages(history, self)| && |KeptFrom(history, self, 0)| == |LoadMessages(history, self)|
    requires KeptFrom(history, self, 0)[i] == j
    requires forall u :: 0 <= u < i && IsConfigMessage(Contents(LoadMessages(history, self))[u]) ==>
               PartKey(Contents(LoadMessages(history, self))[u]) != k
    ensures forall j' :: j < j' < |history| && Kept(history[j'], self) ==> !HasPart(history[j'], k)
  {
    forall j' | j < j' < |history| && Kept(history[j'], self)
      ensures !HasPart(history[j'], k)
    {
      var u := OlderLoadedEarlier(history, self, i, j');
    }
  }

  /** A present key holds the value of the OLDEST kept message with that key (the one
      listed last): no kept message further down the history has it. */
  lemma OldestPartWins(history: seq<Message>, self: Snowflake, k: string)
    requires k in Parts(Contents(LoadMessages(history, self)))
    ensures var d := Parts(Contents(LoadMessages(history, self)));
            exists j :: 0 <= j < |history| && Kept(history[j], self) && HasPart(history[j], k)
                        && d[k].value == PartValue(history[j].content)
                        && forall j' :: j < j' < |history| && Kept(history[j'], self) ==> !HasPart(history[j'], k)
  {
    var contents := Contents(LoadMessages(history, self));
    PartsSpec(contents, k);
    var i := Parts(contents)[k].index;
    var j := LoadedAt(history, self, i);
    assert contents[i] == history[j].content;
    assert HasPart(history[j], k);
    assert Parts(contents)[k].value == PartValue(history[j].content);
    OlderHaveOtherKeys(history, self, k, i, j);
  }

  const Quote: string := "> "
  const OpenFence: string := "```json"
  const CloseFence: string := "```"

  /** formatConfigMessage with the serialised object as `body`: "> key", then the body
      in a json code fence. */
  function FormatConfigMessage(key: string, body: string): string {
    Quote + key + ['\n'] + OpenFence + ['\n'] + body + ['\n'] + CloseFence
  }

  predicate NoLineBreak(s: string) {
    forall i :: 0 <= i < |s| ==> s[i] !in LineBreaks
  }

  /** A body that survives splitting into lines: no '\r', and either empty or made of
      non-empty lines none of which starts a code fence. */
  predicate PlainBody(body: string) {
    (forall i :: 0 <= i < |body| ==> body[i] != '\r')
    && (body == [] || forall p :: p in SplitAll(body, {'\n'}) ==> p != [] && !StartsWith(p, "```"))
  }

  lemma {:induction false} SplitAllWithoutReturn(s: string)
    requires forall i :: 0 <= i < |s| ==> s[i] != '\r'
    ensures SplitAll(s, LineBreaks) == SplitAll(s, {'\n'})
    decreases |s|
  {
    if s != [] {
      SplitAllWithoutReturn(s[1..]);
    }
  }

  lemma {:induction false} RemoveEmptyNone(ps: seq<string>)
    requires forall k :: 0 <= k < |ps| ==> ps[k] != []
    ensures RemoveEmpty(ps) == ps
  {
    if ps != [] {
      assert forall k :: 0 <= k < |ps[1..]| ==> ps[1..][k] == ps[k + 1];
      RemoveEmptyNone(ps[1..]);
    }
  }

  lemma {:induction false} NotFencesNone(ps: seq<string>)
    requires forall k :: 0 <= k < |ps| ==> !StartsWith(ps[k], "```")
    ensures NotFences(ps) == ps
  {
    if ps != [] {
      assert forall k :: 0 <= k < |ps[1..]| ==> ps[1..][k] == ps[k + 1];
      NotFencesNone(ps[1..]);
    }
  }

  lemma FencesHaveNoLineBreak()
    ensures NoLineBreak(Quote) && NoLineBreak(OpenFence) && NoLineBreak(CloseFence)
    ensures StartsWith(OpenFence, "```") && StartsWith(CloseFence, "```")
  {
  }

  /** Four lines joined by "\n", the third of which may hold further '\n's, split
      at every line break. */
  lemma {:induction false} SplitFourLines(a: string, b: string, body: string, c: string)
    requires NoLineBreak(a) && NoLineBreak(b) && NoLineBreak(c)
    requires forall i :: 0 <= i < |body| ==> body[i] != '\r'
    ensures SplitAll(a + ['\n'] + b + ['\n'] + body + ['\n'] + c, LineBreaks)
            == [a] + ([b] + (SplitAll(body, {'\n'}) + [c]))
  {
    var tail := body + ['\n'] + c;
    var mid := b + ['\n'] + tail;
    assert a + ['\n'] + b + ['\n'] + body + ['\n'] + c == a + ['\n'] + mid;
    SplitAllConcat(a, '\n', mid, LineBreaks);
    SplitAllConcat(b, '\n', tail, LineBreaks);
    SplitAllConcat(body, '\n', c, LineBreaks);
    SplitAllNoSeparator(a, LineBreaks);
    SplitAllNoSeparator(b, LineBreaks);
    SplitAllNoSeparator(c, LineBreaks);
    SplitAllWithoutReturn(body);
  }

  /** Dropping the empty pieces of those lines keeps the outer three when they are
      non-empty. */
  lemma RemoveEmptyFourLines(a: string, b: string, bodyLines: seq<string>, c: string)
    requires a != [] && b != [] && c != []
    ensures RemoveEmpty([a] + ([b] + (bodyLines + [c]))) == [a, b] + RemoveEmpty(bodyLines) + [c]
  {
    var inner := RemoveEmpty(bodyLines);
    assert RemoveEmpty(bodyLines + [c]) == inner + [c] by {
      RemoveEmptySingle(c);
      RemoveEmptyConcat(bodyLines, [c]);
    }
    assert RemoveEmpty([b] + (bodyLines + [c])) == [b] + (inner + [c]) by {
      RemoveEmptySingle(b);
      RemoveEmptyConcat([b], bodyLines + [c]);
    }
    assert RemoveEmpty([a] + ([b] + (bodyLines + [c]))) == [a] + ([b] + (inner + [c])) by {
      RemoveEmptySingle(a);
      RemoveEmptyConcat([a], [b] + (bodyLines + [c]));
    }
    assert [a] + ([b] + (inner + [c])) == [a, b] + inner + [c];
  }

  lemma RemoveEmptySingle(a: string)
    requires a != []
    ensures RemoveEmpty([a]) == [a]
  {
    assert RemoveEmpty([a]) == [a] + RemoveEmpty([]);
  }

  /** The lines of a formatted message: the key line, the fence, the body's lines and
      the closing fence. */
  lemma FormattedLines(key: string, body: string)
    requires NoLineBreak(key)
    requires PlainBody(body)
    ensures IsConfigMessage(FormatConfigMessage(key, body))
    ensures PartLines(FormatConfigMessage(key, body))
            == [Quote + key, OpenFence] + (if body == [] then [] else SplitAll(body, {'\n'})) + [CloseFence]
  {
    var a := Quote + key;
    var m := FormatConfigMessage(key, body);
    assert m[..2] == Quote;
    FencesHaveNoLineBreak();
    assert NoLineBreak(a) by {
      forall i | 0 <= i < |a| ensures a[i] !in LineBreaks {
        if i >= |Quote| {
          assert a[i] == key[i - |Quote|];
        }
      }
    }
    SplitFourLines(a, OpenFence, body, CloseFence);
    var bodyLines := SplitAll(body, {'\n'});
    if body == [] {
      assert bodyLines == [[]];
      assert RemoveEmpty(bodyLines) == RemoveEmpty([]);
    } else {
      forall k | 0 <= k < |bodyLines| ensures bodyLines[k] != [] {
        assert bodyLines[k] in bodyLines;
      }
      RemoveEmptyNone(bodyLines);
    }
    RemoveEmptyFourLines(a, OpenFence, bodyLines, CloseFence);
  }

  /** Reading back a formatted part gives the lower-cased, trimmed key and the body. */
  lemma FormatRoundTrip(key: string, body: string)
    requires NoLineBreak(key)
    requires PlainBody(body)
    ensures IsConfigMessage(FormatConfigMessage(key, body))
    ensures PartKey(FormatConfigMessage(key, body)) == ToLower(Trim(key))
    ensures PartValue(FormatConfigMessage(key, body)) == body
  {
    FormattedKey(key, body);
    FormattedValue(key, body);
  }

  lemma FormattedKey(key: string, body: string)
    requires NoLineBreak(key)
    requires PlainBody(body)
    ensures IsConfigMessage(FormatConfigMessage(key, body))
    ensures PartKey(FormatConfigMessage(key, body)) == ToLower(Trim(key))
  {
    FormattedLines(key, body);
    assert PartLines(FormatConfigMessage(key, body))[0][2..] == key;
  }

  lemma FormattedValue(key: string, body: string)
    requires NoLineBreak(key)
    requires PlainBody(body)
    ensures IsConfigMessage(FormatConfigMessage(key, body))
    ensures PartValue(FormatConfigMessage(key, body)) == body
  {
    FormattedLines(key, body);
    var bodyLines := if body == [] then [] else SplitAll(body, {'\n'});
    DropFirstLine(PartLines(FormatConfigMessage(key, body)), Quote + key, OpenFence, bodyLines, CloseFence);
    BodyLines(body, bodyLines + [CloseFence]);
  }

  lemma DropFirstLine(lines: seq<string>, a: string, b: string, middle: seq<string>, c: string)
    requires lines == [a, b] + middle + [c]
    ensures lines[1..] == [b] + (middle + [c])
  {
    assert lines[1..] == [b] + middle + [c];
  }

  /** The lines after the opening fence join back into the body. */
  lemma BodyLines(body: string, rest: seq<string>)
    requires PlainBody(body)
    requires rest == (if body == [] then [] else SplitAll(body, {'\n'})) + [CloseFence]
    ensures Join("\n", NotFences([OpenFence] + rest)) == body
  {
    FencesHaveNoLineBreak();
    assert NotFences([OpenFence] + rest) == NotFences(rest);
    if body == [] {
      assert NotFences(rest) == NotFences([CloseFence]) == [];
    } else {
      var bl := SplitAll(body, {'\n'});
      assert NotFences(bl + [CloseFence]) == NotFences(bl) by {
        NotFencesConcat(bl, [CloseFence]);
      }
      forall k | 0 <= k < |bl| ensures !StartsWith(bl[k], "```") {
        assert bl[k] in bl;
      }
      NotFencesNone(bl);
      JoinSplitAll(body, '\n');
    }
  }

  lemma {:induction false} NotFencesConcat(a: seq<string>, b: seq<string>)
    ensures NotFences(a + b) == NotFences(a) + NotFences(b)
  {
    if a == [] {
      assert a + b == b;
    } else {
      assert (a + b)[1..] == a[1..] + b;
      NotFencesConcat(a[1..], b);
    }
  }

  // ------------------------------------------------------------ bot channels

  /** A bot-channels message: its content and the channel ids it mentions. */
  datatype ChannelMessage = ChannelMessage(content: string, mentions: seq<Snowflake>)

  /** `GetChannelIds().SingleOrDefault()` overridden by a content that parses as a
      ulong; None when the message mentions two channels or more, where
      SingleOrDefault throws. */
  function ChannelIdOf(m: ChannelMessage): (r: Option<Snowflake>)
  {
    if |m.mentions| > 1 then None
    else if ParseULong(m.content).Some? then ParseULong(m.content)
    else if |m.mentions| == 1 then Some(m.mentions[0])
    else Some(0)
  }

  /** The id each message resolves to, in order. */
  function Resolved(messages: seq<ChannelMessage>): (r: seq<Option<Snowflake>>)
    ensures |r| == |messages|
    ensures forall k :: 0 <= k < |messages| ==> r[k] == ChannelIdOf(messages[k])
  {
    if messages == [] then [] else [ChannelIdOf(messages[0])] + Resolved(messages[1..])
  }

  /** The loop's result after the resolved ids: the accepted ids and, per message,
      whether it was rejected; None for the set once a message throws. */
  function Accepted(ids: seq<Option<Snowflake>>, isTextChannel: Snowflake -> bool)
    : (r: (Option<set<Snowflake>>, seq<bool>))
    ensures r.0.Some? ==> |r.1| == |ids|
    decreases |ids|
  {
    if ids == [] then (Some({}), [])
    else
      var n := |ids| - 1;
      var prior := Accepted(ids[..n], isTextChannel);
      var id := ids[n];
      if prior.0.None? || id.None? then (None, prior.1)
      else if !isTextChannel(id.value) || id.value in prior.0.value then (prior.0, prior.1 + [true])
      else (Some(prior.0.value + {id.value}), prior.1 + [false])
  }

  function BotChannels(messages: seq<ChannelMessage>, isTextChannel: Snowflake -> bool)
    : (r: (Option<set<Snowflake>>, seq<bool>))
  {
    Accepted(Resolved(messages), isTextChannel)
  }

  /** The bot-channel loop of ReloadChannelAsync. */
  method ParseBotChannels(messages: seq<ChannelMessage>, isTextChannel: Snowflake -> bool)
    returns (ids: Option<set<Snowflake>>, rejected: seq<bool>)
    ensures ids == BotChannels(messages, isTextChannel).0
    ensures ids.Some? ==> rejected == BotChannels(messages, isTextChannel).1
  {
    var channelIds: set<Snowflake> := {};
    rejected := [];
    for i := 0 to |messages|
      invariant BotChannels(messages[..i], isTextChannel) == (Some(channelIds), rejected)
    {
      var r := ChannelIdOf(messages[i]);
      ResolvedSnoc(messages, i);
      AcceptedSnoc(Resolved(messages[..i]), r, isTextChannel);
      if r.None? {
        LaterThrows(messages, i + 1, isTextChannel);
        return None, rejected;
      }
      var id := r.value;
      if !isTextChannel(id) || id in channelIds {
        rejected := rejected + [true];
        continue;
      }
      channelIds := channelIds + {id};
      rejected := rejected + [false];
    }
    assert messages[..|messages|] == messages;
    ids := Some(channelIds);
  }

  /** The ids of one more message. */
  lemma ResolvedSnoc(messages: seq<ChannelMessage>, i: nat)
    requires i < |messages|
    ensures Resolved(messages[..i + 1]) == Resolved(messages[..i]) + [ChannelIdOf(messages[i])]
  {
  }

  /** Once the messages up to `n` throw, so do all of them. */
  lemma LaterThrows(messages: seq<ChannelMessage>, n: nat, isTextChannel: Snowflake -> bool)
    requires n <= |messages| && BotChannels(messages[..n], isTextChannel).0.None?
    ensures BotChannels(messages, isTextChannel).0.None?
  {
    var all := Resolved(messages);
    assert all[..n] == Resolved(messages[..n]);
    PrefixThrows(all, n, isTextChannel);
  }

  /** One more id: the step the loop takes. */
  lemma AcceptedSnoc(ids: seq<Option<Snowflake>>, id: Option<Snowflake>, isTextChannel: Snowflake -> bool)
    ensures var prior := Accepted(ids, isTextChannel);
            Accepted(ids + [id], isTextChannel)
            == if prior.0.None? || id.None? then (None, prior.1)
               else if !isTextChannel(id.value) || id.value in prior.0.value then (prior.0, prior.1 + [true])
               else (Some(prior.0.value + {id.value}), prior.1 + [false])
  {
    assert (ids + [id])[..|ids|] == ids;
  }

  /** Once a message throws, so does every longer run of messages. */
  lemma {:induction false} PrefixThrows(ids: seq<Option<Snowflake>>, i: nat, isTextChannel: Snowflake -> bool)
    requires i <= |ids|
    requires Accepted(ids[..i], isTextChannel).0.None?
    ensures Accepted(ids, isTextChannel).0.None?
    decreases |ids| - i
  {
    if i < |ids| {
      assert ids[..i + 1][..i] == ids[..i];
      PrefixThrows(ids, i + 1, isTextChannel);
    } else {
      assert ids[..i] == ids;
    }
  }

  /** The set is None exactly when some id is missing (a message mentioning two
      channels or more); otherwise it holds every known text channel some message names. */
  lemma {:induction false} AcceptedSet(ids: seq<Option<Snowflake>>, isTextChannel: Snowflake -> bool, x: Snowflake)
    ensures Accepted(ids, isTextChannel).0.None? <==> None in ids
    ensures Accepted(ids, isTextChannel).0.Some? ==>
              (x in Accepted(ids, isTextChannel).0.value <==> isTextChannel(x) && Some(x) in ids)
    decreases |ids|
  {
    if ids != [] {
      var n := |ids| - 1;
      AcceptedSet(ids[..n], isTextChannel, x);
      assert ids == ids[..n] + [ids[n]];
    }
  }

  /** A message is rejected exactly when its id is not a known text channel or an
      earlier message already named it. */
  lemma {:induction false} AcceptedRejected(ids: seq<Option<Snowflake>>, isTextChannel: Snowflake -> bool, i: nat)
    requires i < |ids|
    requires Accepted(ids, isTextChannel).0.Some?
    ensures ids[i].Some?
    ensures Accepted(ids, isTextChannel).1[i] <==> !isTextChannel(ids[i].value) || ids[i] in ids[..i]
    decreases |ids|
  {
    var n := |ids| - 1;
    var prefix := ids[..n];
    var prior := Accepted(prefix, isTextChannel);
    assert prior.0.Some?;
    if i < n {
      AcceptedRejected(prefix, isTextChannel, i);
      assert Accepted(ids, isTextChannel).1[i] == prior.1[i];
      assert prefix[..i] == ids[..i];
    } else {
      AcceptedSet(prefix, isTextChannel, ids[n].value);
    }
  }

  /** ReloadChannelAsync's bot channels: the set is None (the call throws) exactly when
      some message mentions two channels or more; otherwise it holds exactly the known
      text channels the messages name, and a message is rejected exactly when its id is
      not a known text channel or an earlier message already named it. */
  lemma BotChannelsSpec(messages: seq<ChannelMessage>, isTextChannel: Snowflake -> bool, x: Snowflake, i: nat)
    ensures BotChannels(messages, isTextChannel).0.None?
            <==> exists k :: 0 <= k < |messages| && |messages[k].mentions| > 1
    ensures BotChannels(messages, isTextChannel).0.Some? ==>
              (x in BotChannels(messages, isTextChannel).0.value
               <==> isTextChannel(x) && exists k :: 0 <= k < |messages| && ChannelIdOf(messages[k]) == Some(x))
    ensures BotChannels(messages, isTextChannel).0.Some? && i < |messages| ==>
              ChannelIdOf(messages[i]).Some?
              && (BotChannels(messages, isTextChannel).1[i]
                  <==> !isTextChannel(ChannelIdOf(messages[i]).value)
                       || exists k :: 0 <= k < i && ChannelIdOf(messages[k]) == ChannelIdOf(messages[i]))
  {
    BotChannelsThrow(messages, isTextChannel);
    BotChannelsSet(messages, isTextChannel, x);
    if BotChannels(messages, isTextChannel).0.Some? && i < |messages| {
      BotChannelsRejected(messages, isTextChannel, i);
    }
  }

  lemma BotChannelsThrow(messages: seq<ChannelMessage>, isTextChannel: Snowflake -> bool)
    ensures BotChannels(messages, isTextChannel).0.None?
            <==> exists k :: 0 <= k < |messages| && |messages[k].mentions| > 1
  {
    var all := Resolved(messages);
    AcceptedSet(all, isTextChannel, 0);
    if None in all {
      var k :| 0 <= k < |all| && all[k] == None;
      assert |messages[k].mentions| > 1;
    }
  }

  lemma BotChannelsSet(messages: seq<ChannelMessage>, isTextChannel: Snowflake -> bool, x: Snowflake)
    ensures BotChannels(messages, isTextChannel).0.Some? ==>
              (x in BotChannels(messages, isTextChannel).0.value
               <==> isTextChannel(x) && exists k :: 0 <= k < |messages| && ChannelIdOf(messages[k]) == Some(x))
  {
    var all := Resolved(messages);
    AcceptedSet(all, isTextChannel, x);
    if Some(x) in all {
      var k :| 0 <= k < |all| && all[k] == Some(x);
      assert ChannelIdOf(messages[k]) == Some(x);
    }
  }

  lemma BotChannelsRejected(messages: seq<ChannelMessage>, isTextChannel: Snowflake -> bool, i: nat)
    requires BotChannels(messages, isTextChannel).0.Some? && i < |messages|
    ensures ChannelIdOf(messages[i]).Some?
    ensures BotChannels(messages, isTextChannel).1[i]
            <==> !isTextChannel(ChannelIdOf(messages[i]).value)
                 || exists k :: 0 <= k < i && ChannelIdOf(messages[k]) == ChannelIdOf(messages[i])
  {
    var all := Resolved(messages);
    AcceptedRejected(all, isTextChannel, i);
    if all[i] in all[..i] {
      var k :| 0 <= k < i && all[..i][k] == all[i];
      assert ChannelIdOf(messages[k]) == ChannelIdOf(messages[i]);
    }
  }
}
