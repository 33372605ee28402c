/** The character wishlist filter: a name matcher built from the character wishlist
    and an anime matcher whose items carry their own exclusion lists. The wishlist
    entries are raw user regular expressions, so the regex engine is a pair of
    parameters: `compiles(p)` says whether `new Regex(p)` succeeds, and
    `isMatch(p, s)` whether the compiled pattern `p` matches `s` (with the
    multi-line and ignore-case options the filter always uses). */
module CharacterFilter {
  import opened Base
  import opened Strings

  /** CharacterInfo: the name and anime of a rolled character. */
  datatype Character = Character(name: string, anime: string)

  /** `s?.Trim() ?? ""`. */
  function TrimOrEmpty(s: Option<string>): (r: string)
    ensures s.None? ==> r == []
    ensures s.Some? ==> r == Trim(s.value)
  {
    if s.Some? then Trim(s.value) else []
  }

  /** The CharacterInfo constructor: both strings trimmed, null read as "". */
  function NewCharacter(name: Option<string>, anime: Option<string>): Character {
    Character(TrimOrEmpty(name), TrimOrEmpty(anime))
  }

  /** No white space at either end. */
  predicate Trimmed(s: string) {
    s == [] || (!IsWhiteSpace(s[0]) && !IsWhiteSpace(s[|s| - 1]))
  }

  lemma TrimIsTrimmed(s: Option<string>)
    ensures Trimmed(TrimOrEmpty(s))
  {
    if s.Some? {
      var r := Trim(s.value);
      assert r == [] || (!IsWhiteSpace(r[0]) && !IsWhiteSpace(r[|r| - 1]));
    }
  }

  /** Neither field of a new character starts or ends with white space. */
  lemma NewCharacterTrimmed(name: Option<string>, anime: Option<string>)
    ensures Trimmed(NewCharacter(name, anime).name) && Trimmed(NewCharacter(name, anime).anime)
  {
    TrimIsTrimmed(name);
    TrimIsTrimmed(anime);
  }

  /** Building a character from an existing one's fields gives it back. */
  lemma NewCharacterFixed(name: Option<string>, anime: Option<string>)
    ensures var c := NewCharacter(name, anime); NewCharacter(Some(c.name), Some(c.anime)) == c
  {
    TrimOrEmptyFixed(name);
    TrimOrEmptyFixed(anime);
  }

  lemma TrimOrEmptyFixed(s: Option<string>)
    ensures TrimOrEmpty(Some(TrimOrEmpty(s))) == TrimOrEmpty(s)
  {
    if s.Some? {
      TrimIdempotent(s.value);
    }
  }

  /** The result of a matcher: a value, or the NullReferenceException of a default
      anime matcher. */
  datatype Outcome = Value(b: bool) | Throws

  // ------------------------------------------------------------------ NameMatch

  /** NameMatch: the alternatives of its compiled regex, or none (a null regex) for an
      empty wishlist and for the default value. */
  datatype NameMatch = NameMatch(alternatives: Option<seq<string>>)

  const NoNames := NameMatch(None)

  function Parenthesise(items: seq<string>): (r: seq<string>)
    ensures |r| == |items|
    ensures forall i :: 0 <= i < |items| ==> r[i] == "(" + items[i] + ")"
  {
    if items == [] then [] else ["(" + items[0] + ")"] + Parenthesise(items[1..])
  }

  /** The pattern the constructor builds: "(a)|(b)|…". */
  function Alternation(items: seq<string>): string {
    Join("|", Parenthesise(items))
  }

  /** The constructor's result: None when `new Regex` throws on the built pattern. */
  function NameMatchOf(items: seq<string>, compiles: string -> bool): (r: Option<NameMatch>)
    ensures items == [] ==> r == Some(NoNames)
    ensures items != [] ==> (r.None? <==> !compiles(Alternation(items)))
    ensures r.Some? && items != [] ==> r.value.alternatives == Some(items)
  {
    if items == [] then Some(NoNames)
    else if compiles(Alternation(items)) then Some(NameMatch(Some(items)))
    else None
  }

  /** The NameMatch constructor: the pattern is built with a StringBuilder, writing a
      '|' before every item but the first. */
  method NewNameMatch(items: seq<string>, compiles: string -> bool) returns (r: Option<NameMatch>)
    ensures r == NameMatchOf(items, compiles)
  {
    if |items| == 0 {
      return Some(NoNames);
    }
    var builder: string := "";
    var first := true;
    for i := 0 to |items|
      invariant first <==> i == 0
      invariant i == 0 ==> builder == ""
      invariant i > 0 ==> builder == Alternation(items[..i])
    {
      if first {
        first := false;
      } else {
        builder := builder + "|";
      }
      builder := builder + "(" + items[i] + ")";
      AlternationSnoc(items, i);
    }
    assert items[..|items|] == items;
    if !compiles(builder) {
      return None;
    }
    return Some(NameMatch(Some(items)));
  }

  /** The pattern grows by one parenthesised item, after a '|' unless it is the first. */
  lemma AlternationSnoc(items: seq<string>, i: nat)
    requires i < |items|
    ensures i == 0 ==> Alternation(items[..1]) == "(" + items[0] + ")"
    ensures i > 0 ==> Alternation(items[..i + 1]) == Alternation(items[..i]) + "|" + "(" + items[i] + ")"
  {
    assert items[..i + 1] == items[..i] + [items[i]];
    ParenthesiseSnoc(items[..i], items[i]);
    if i > 0 {
      JoinSnoc("|", Parenthesise(items[..i]), "(" + items[i] + ")");
    }
  }

  lemma ParenthesiseSnoc(items: seq<string>, x: string)
    ensures Parenthesise(items + [x]) == Parenthesise(items) + ["(" + x + ")"]
  {
  }

  /** NameMatch.IsMatch: false for a null regex; otherwise the alternation matches iff
      one of its alternatives does. */
  predicate NameIsMatch(m: NameMatch, c: Character, isMatch: (string, string) -> bool) {
    m.alternatives.Some?
    && exists i :: 0 <= i < |m.alternatives.value| && isMatch(m.alternatives.value[i], c.name)
  }

  /** An empty wishlist never matches; a non-empty one that compiles matches a name iff
      one of its entries does. */
  lemma NameMatchSpec(items: seq<string>, compiles: string -> bool, c: Character, isMatch: (string, string) -> bool)
    requires NameMatchOf(items, compiles).Some?
    ensures NameIsMatch(NameMatchOf(items, compiles).value, c, isMatch)
            <==> exists i :: 0 <= i < |items| && isMatch(items[i], c.name)
  {
  }

  // ----------------------------------------------------------------- AnimeMatch

  /** An anime wishlist entry: its pattern and an optional exclusion wishlist. */
  datatype AnimeWish = AnimeWish(name: string, excluding: Option<seq<string>>)

  /** AnimeMatch.Item: the anime pattern and the exclusion matcher. */
  datatype AnimeItem = AnimeItem(pattern: string, excluding: NameMatch)

  /** AnimeMatch: the item array, or none (a null array) for the default value. */
  datatype AnimeMatch = AnimeMatch(items: Option<seq<AnimeItem>>)

  const NoAnime := AnimeMatch(None)

  /** The Item constructor: the anime pattern must compile, and so must a non-null
      exclusion list; a null one leaves the default (never matching) NameMatch. */
  function ItemOf(w: AnimeWish, compiles: string -> bool): (r: Option<AnimeItem>)
    ensures r.Some? ==> compiles(w.name) && r.value.pattern == w.name
    ensures r.Some? && w.excluding.None? ==> r.value.excluding == NoNames
    ensures r.Some? && w.excluding.Some? ==> Some(r.value.excluding) == NameMatchOf(w.excluding.value, compiles)
    ensures r.None? <==> !compiles(w.name) || (w.excluding.Some? && NameMatchOf(w.excluding.value, compiles).None?)
  {
    if !compiles(w.name) then None
    else if w.excluding.None? then Some(AnimeItem(w.name, NoNames))
    else
      var ex := NameMatchOf(w.excluding.value, compiles);
      if ex.None? then None else Some(AnimeItem(w.name, ex.value))
  }

  /** The AnimeMatch constructor's result: None when building any item throws. */
  function AnimeMatchOf(wishes: seq<AnimeWish>, compiles: string -> bool): (r: Option<AnimeMatch>)
    ensures r.None? <==> exists i :: 0 <= i < |wishes| && ItemOf(wishes[i], compiles).None?
    ensures r.Some? ==> r.value.items.Some? && |r.value.items.value| == |wishes|
    ensures r.Some? ==> forall i :: 0 <= i < |wishes| ==> ItemOf(wishes[i], compiles) == Some(r.value.items.value[i])
  {
    if wishes == [] then Some(AnimeMatch(Some([])))
    else
      var head := ItemOf(wishes[0], compiles);
      var rest := AnimeMatchOf(wishes[1..], compiles);
      assert forall i :: 1 <= i < |wishes| ==> wishes[i] == wishes[1..][i - 1];
      if head.None? || rest.None? then None
      else Some(AnimeMatch(Some([head.value] + rest.value.items.value)))
  }

  /** The Item constructor. */
  method NewItem(w: AnimeWish, compiles: string -> bool) returns (r: Option<AnimeItem>)
    ensures r == ItemOf(w, compiles)
  {
    if !compiles(w.name) {
      return None;
    }
    var ex := NoNames;
    if w.excluding.Some? {
      var built := NewNameMatch(w.excluding.value, compiles);
      if built.None? {
        return None;
      }
      ex := built.value;
    }
    return Some(AnimeItem(w.name, ex));
  }

  /** The AnimeMatch constructor: fills an item array in a loop; an item that throws
      aborts the construction. */
  method NewAnimeMatch(wishes: seq<AnimeWish>, compiles: string -> bool) returns (r: Option<AnimeMatch>)
    ensures r == AnimeMatchOf(wishes, compiles)
  {
    var items := new AnimeItem[|wishes|](_ => AnimeItem([], NoNames));
    for i := 0 to |wishes|
      invariant forall k :: 0 <= k < i ==> ItemOf(wishes[k], compiles) == Some(items[k])
    {
      var item := NewItem(wishes[i], compiles);
      if item.None? {
        return None;
      }
      items[i] := item.value;
    }
    var m := AnimeMatchOf(wishes, compiles);
    assert m.Some? && m.value.items.value == items[..];
    return Some(AnimeMatch(Some(items[..])));
  }

  /** Item.IsMatch: the anime pattern matches and the exclusions do not match the name. */
  predicate ItemIsMatch(item: AnimeItem, c: Character, isMatch: (string, string) -> bool) {
    isMatch(item.pattern, c.anime) && !NameIsMatch(item.excluding, c, isMatch)
  }

  /** AnimeMatch.IsMatch on a matcher: some item matches; a null array throws. */
  function AnimeResult(m: AnimeMatch, c: Character, isMatch: (string, string) -> bool): Outcome {
    if m.items.None? then Throws
    else Value(exists i :: 0 <= i < |m.items.value| && ItemIsMatch(m.items.value[i], c, isMatch))
  }

  /** AnimeMatch.IsMatch: the loop that returns at the first matching item. */
  method AnimeIsMatch(m: AnimeMatch, c: Character, isMatch: (string, string) -> bool) returns (r: Outcome)
    ensures r == AnimeResult(m, c, isMatch)
  {
    if m.items.None? {
      return Throws;
    }
    var items := m.items.value;
    for i := 0 to |items|
      invariant forall k :: 0 <= k < i ==> !ItemIsMatch(items[k], c, isMatch)
    {
      if ItemIsMatch(items[i], c, isMatch) {
        return Value(true);
      }
    }
    return Value(false);
  }

  /** An entry with a null exclusion list matches exactly the characters of its anime;
      with an exclusion list, no character the list names is matched. */
  lemma ItemSpec(w: AnimeWish, compiles: string -> bool, c: Character, isMatch: (string, string) -> bool)
    requires ItemOf(w, compiles).Some?
    ensures w.excluding.None? ==> (ItemIsMatch(ItemOf(w, compiles).value, c, isMatch) <==> isMatch(w.name, c.anime))
    ensures w.excluding.Some? ==>
              (ItemIsMatch(ItemOf(w, compiles).value, c, isMatch)
               <==> isMatch(w.name, c.anime) && forall i :: 0 <= i < |w.excluding.value| ==> !isMatch(w.excluding.value[i], c.name))
  {
    if w.excluding.Some? {
      NameMatchSpec(w.excluding.value, compiles, c, isMatch);
    }
  }

  /** A built anime matcher matches iff some entry does; an empty anime list never matches. */
  lemma AnimeMatchSpec(wishes: seq<AnimeWish>, compiles: string -> bool, c: Character, isMatch: (string, string) -> bool)
    requires AnimeMatchOf(wishes, compiles).Some?
    ensures AnimeResult(AnimeMatchOf(wishes, compiles).value, c, isMatch)
              == Value(exists i :: 0 <= i < |wishes| && ItemIsMatch(ItemOf(wishes[i], compiles).value, c, isMatch))
    ensures wishes == [] ==> AnimeResult(AnimeMatchOf(wishes, compiles).value, c, isMatch) == Value(false)
  {
    var items := AnimeMatchOf(wishes, compiles).value.items.value;
    assert forall i :: 0 <= i < |wishes| ==> ItemOf(wishes[i], compiles).value == items[i];
  }

  // --------------------------------------------------------------------- filter

  /** IsWished: the name matcher first, then the anime matcher. */
  function Wished(name: NameMatch, anime: AnimeMatch, c: Character, isMatch: (string, string) -> bool): Outcome {
    if NameIsMatch(name, c, isMatch) then Value(true) else AnimeResult(anime, c, isMatch)
  }

  /** A matching name never reaches the anime matcher; otherwise the anime matcher decides,
      and a default one (left by a failed build) throws. */
  lemma WishedSpec(name: NameMatch, anime: AnimeMatch, c: Character, isMatch: (string, string) -> bool)
    ensures Wished(name, anime, c, isMatch) == Throws <==> !NameIsMatch(name, c, isMatch) && anime.items.None?
    ensures Wished(name, anime, c, isMatch) == Value(true)
            <==> NameIsMatch(name, c, isMatch)
                   || (anime.items.Some? && exists i :: 0 <= i < |anime.items.value| && ItemIsMatch(anime.items.value[i], c, isMatch))
  {
  }

  /** The matcher a reset stores: the built one, or the default when building threw. */
  function NameOrDefault(items: seq<string>, compiles: string -> bool): NameMatch {
    var r := NameMatchOf(items, compiles);
    if r.Some? then r.value else NoNames
  }

  function AnimeOrDefault(wishes: seq<AnimeWish>, compiles: string -> bool): AnimeMatch {
    var r := AnimeMatchOf(wishes, compiles);
    if r.Some? then r.value else NoAnime
  }

  /** With both wishlists empty nothing is wished. A character wishlist that fails to
      compile is as good as an empty one, but an anime wishlist that fails makes the
      filter throw for every character whose name is not wished. */
  lemma ResetOutcomes(items: seq<string>, wishes: seq<AnimeWish>, compiles: string -> bool, c: Character, isMatch: (string, string) -> bool)
    ensures items == [] && wishes == [] ==>
              Wished(NameOrDefault(items, compiles), AnimeOrDefault(wishes, compiles), c, isMatch) == Value(false)
    ensures NameMatchOf(items, compiles).None? ==> !NameIsMatch(NameOrDefault(items, compiles), c, isMatch)
    ensures AnimeMatchOf(wishes, compiles).None? && !NameIsMatch(NameOrDefault(items, compiles), c, isMatch) ==>
              Wished(NameOrDefault(items, compiles), AnimeOrDefault(wishes, compiles), c, isMatch) == Throws
  {
  }

  /** MudaeClaimCharacterFilter: the two matchers, rebuilt whenever a wishlist changes. */
  class Filter {
    var name: NameMatch
    var anime: AnimeMatch

    constructor (items: seq<string>, wishes: seq<AnimeWish>, compiles: string -> bool)
      ensures name == NameOrDefault(items, compiles)
      ensures anime == AnimeOrDefault(wishes, compiles)
    {
      name := NoNames;
      anime := NoAnime;
      new;
      ResetNameMatch(items, compiles);
      ResetAnimeMatch(wishes, compiles);
    }

    /** ResetNameMatch: a build failure is caught and leaves the default matcher. */
    method ResetNameMatch(items: seq<string>, compiles: string -> bool)
      modifies this
      ensures name == NameOrDefault(items, compiles)
      ensures anime == old(anime)
    {
      var built := NewNameMatch(items, compiles);
      if built.Some? {
        name := built.value;
      } else {
        name := NoNames;
      }
    }

    /** ResetAnimeMatch: likewise for the anime matcher. */
    method ResetAnimeMatch(wishes: seq<AnimeWish>, compiles: string -> bool)
      modifies this
      ensures anime == AnimeOrDefault(wishes, compiles)
      ensures name == old(name)
    {
      var built := NewAnimeMatch(wishes, compiles);
      if built.Some? {
        anime := built.value;
      } else {
        anime := NoAnime;
      }
    }

    /** IsWished, short-circuiting on the name. */
    method IsWished(c: Character, isMatch: (string, string) -> bool) returns (r: Outcome)
      ensures r == Wished(name, anime, c, isMatch)
    {
      if NameIsMatch(name, c, isMatch) {
        return Value(true);
      }
      r := AnimeIsMatch(anime, c, isMatch);
    }
  }
}
