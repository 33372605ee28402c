/** Which reactions are claim hearts and which are kakera crystals (the newer
    filter, which also reads the kakera kind off a custom emoji's name). */
module ClaimEmojiFilter {
  import opened Base
  import opened Strings

  /** A reaction emoji: a Unicode emoji named by its text, or a guild's custom emoji.
      Emoji text is held as Unicode code points. */
  datatype Emoji = Local(name: string) | Custom(id: Snowflake, name: string)

  datatype KakeraType = Purple | Blue | Teal | Green | Yellow | Orange | Red | Rainbow

  /** The eighteen heart emoji, in table order: cupid, gift_heart, sparkling_heart,
      heartpulse, heartbeat, revolving_hearts, two_hearts, heart_decoration, heart,
      orange, yellow, green, blue, purple, brown, black and white hearts, and hearts.
      Each is a Unicode emoji of one code point, so the table holds their names. */
  const HeartNames: seq<string> := [
    "\U{1F498}", "\U{1F49D}", "\U{1F496}", "\U{1F497}", "\U{1F493}", "\U{1F49E}",
    "\U{1F495}", "\U{1F49F}", "\U{2764}", "\U{1F9E1}", "\U{1F49B}", "\U{1F49A}",
    "\U{1F499}", "\U{1F49C}", "\U{1F90E}", "\U{1F5A4}", "\U{1F90D}", "\U{2665}"
  ]

  /** Array.IndexOf: the first position holding `x`, or -1. */
  function IndexOf<T(==)>(table: seq<T>, x: T): (i: int)
    ensures -1 <= i < |table|
    ensures i >= 0 ==> table[i] == x && forall k :: 0 <= k < i ==> table[k] != x
    ensures i == -1 <==> x !in table
  {
    if table == [] then -1
    else if table[0] == x then 0
    else
      var i := IndexOf(table[1..], x);
      if i == -1 then -1 else i + 1
  }

  /** A table entry equals a reaction only when the reaction is a Unicode emoji of the
      same name (a Unicode emoji never equals a custom one). */
  predicate IsHeart(e: Emoji) {
    e.Local? && IndexOf(HeartNames, e.name) != -1
  }

  /** IsClaimEmoji: with custom emotes enabled every emoji counts. */
  predicate IsClaimEmoji(customEmotes: bool, e: Emoji) {
    customEmotes || IsHeart(e)
  }

  /** An emoji is a claim emoji iff custom emotes are enabled or it is one of the hearts;
      with custom emotes off a custom emoji never is. */
  lemma IsClaimEmojiSpec(customEmotes: bool, e: Emoji)
    ensures IsClaimEmoji(customEmotes, e) <==> customEmotes || exists i :: 0 <= i < |HeartNames| && e == Local(HeartNames[i])
    ensures !customEmotes && e.Custom? ==> !IsClaimEmoji(customEmotes, e)
  {
    if IsClaimEmoji(customEmotes, e) && !customEmotes {
      var i := IndexOf(HeartNames, e.name);
      assert e == Local(HeartNames[i]);
    }
  }

  /** The kakera map's keys, which the map compares ignoring case. */
  function KeyOf(t: KakeraType): string {
    match t
    case Purple => "kakerap"
    case Blue => "kakera"
    case Teal => "kakerat"
    case Green => "kakerag"
    case Yellow => "kakeray"
    case Orange => "kakerao"
    case Red => "kakerar"
    case Rainbow => "kakeraw"
  }

  /** Dictionary.TryGetValue with StringComparer.OrdinalIgnoreCase: the name is
      lower-cased and compared with the (lower-case) keys. */
  function KakeraOf(name: string): (r: Option<KakeraType>)
    ensures r.Some? ==> EqualsIgnoreCase(KeyOf(r.value), name)
  {
    LowerKeys();
    LookupSound(ToLower(name));
    Lookup(ToLower(name))
  }

  /** The comparison of a lower-cased name with the eight keys. */
  function Lookup(n: string): Option<KakeraType> {
    if n == "kakerap" then Some(Purple)
    else if n == "kakera" then Some(Blue)
    else if n == "kakerat" then Some(Teal)
    else if n == "kakerag" then Some(Green)
    else if n == "kakeray" then Some(Yellow)
    else if n == "kakerao" then Some(Orange)
    else if n == "kakerar" then Some(Red)
    else if n == "kakeraw" then Some(Rainbow)
    else None
  }

  lemma LookupSound(n: string)
    ensures Lookup(n).Some? ==> n == KeyOf(Lookup(n).value)
  {
  }

  /** Each key is found as its own kind: no earlier key in the chain equals it. */
  lemma LookupKey(t: KakeraType)
    ensures Lookup(KeyOf(t)) == Some(t)
  {
    var k := KeyOf(t);
    if t != Blue {
      assert |k| == 7 && k[6] == KeyTail(t);
    }
  }

  /** The letter after "kakera" in every key but the blue one. */
  function KeyTail(t: KakeraType): char {
    match t
    case Purple => 'p'
    case Blue => ' '
    case Teal => 't'
    case Green => 'g'
    case Yellow => 'y'
    case Orange => 'o'
    case Red => 'r'
    case Rainbow => 'w'
  }

  lemma LowerKeys()
    ensures forall t :: ToLower(KeyOf(t)) == KeyOf(t)
  {
    forall t ensures ToLower(KeyOf(t)) == KeyOf(t) {
      LowerWordIsLower(KeyOf(t));
    }
  }

  lemma LowerWordIsLower(s: string)
    requires forall i :: 0 <= i < |s| ==> 'a' <= s[i] <= 'z'
    ensures ToLower(s) == s
  {
  }

  /** The lookup finds a kind exactly when the name is one of the keys ignoring case,
      and then the kind whose key it is: the keys are distinct even ignoring case. */
  lemma KakeraOfSpec(name: string, t: KakeraType)
    ensures KakeraOf(name) == Some(t) <==> EqualsIgnoreCase(KeyOf(t), name)
    ensures KakeraOf(name).None? <==> forall u :: !EqualsIgnoreCase(KeyOf(u), name)
  {
    LowerKeys();
    var n := ToLower(name);
    LookupSound(n);
    LookupKey(t);
    forall u | EqualsIgnoreCase(KeyOf(u), name)
      ensures KakeraOf(name) == Some(u)
    {
      LookupKey(u);
    }
  }

  /** Every kind has its own key, so the map is a bijection between the eight keys and
      the eight kinds. */
  lemma KeyOfInjective(t: KakeraType, u: KakeraType)
    ensures KakeraOf(KeyOf(t)) == Some(t)
    ensures KeyOf(t) == KeyOf(u) ==> t == u
  {
    LowerKeys();
    LookupKey(t);
    LookupKey(u);
  }

  /** IsKakeraEmoji: `emoji is ICustomEmoji & TryGetValue(...)`. The `&` evaluates the
      lookup for every emoji, so the out-parameter carries the looked-up kind even when
      the result is false for a Unicode emoji. */
  function IsKakeraEmoji(e: Emoji): (r: (bool, Option<KakeraType>))
    ensures r.1 == KakeraOf(e.name)
    ensures r.0 <==> e.Custom? && r.1.Some?
  {
    var kind := KakeraOf(e.name);
    (e.Custom? && kind.Some?, kind)
  }

  /** "KaKeRaW" on a custom emoji is a rainbow kakera; the same name on a Unicode emoji
      is not a kakera, though the lookup still finds the kind. */
  lemma IsKakeraEmojiExample(id: Snowflake)
    ensures IsKakeraEmoji(Custom(id, "KaKeRaW")) == (true, Some(Rainbow))
    ensures IsKakeraEmoji(Local("KaKeRaW")) == (false, Some(Rainbow))
  {
    LowerLetters("KaKeRaW", "kakeraw");
    LookupKey(Rainbow);
  }
}
