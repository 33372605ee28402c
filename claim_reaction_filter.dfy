/** The older claim-emoji filter: the heart table without the kakera map. */
module ClaimReactionFilter {
  import ClaimEmojiFilter

  type Emoji = ClaimEmojiFilter.Emoji

  /** This filter's own copy of the heart table. */
  const HeartNames: seq<string> := [
    "\U{1F498}", "\U{1F49D}", "\U{1F496}", "\U{1F497}", "\U{1F493}", "\U{1F49E}",
    "\U{1F495}", "\U{1F49F}", "\U{2764}", "\U{1F9E1}", "\U{1F49B}", "\U{1F49A}",
    "\U{1F499}", "\U{1F49C}", "\U{1F90E}", "\U{1F5A4}", "\U{1F90D}", "\U{2665}"
  ]

  /** IsClaimEmoji: every emoji with custom emotes on, otherwise a Unicode emoji of
      the table. The value depends on the option and the emoji alone. */
  predicate IsClaimEmoji(customEmotes: bool, e: Emoji) {
    customEmotes || (e.Local? && ClaimEmojiFilter.IndexOf(HeartNames, e.name) != -1)
  }

  /** The two filters hold the same eighteen hearts in the same order, so they agree
      on every emoji and every option value. */
  lemma SameAsClaimEmojiFilter(customEmotes: bool, e: Emoji)
    ensures |HeartNames| == 18
    ensures HeartNames == ClaimEmojiFilter.HeartNames
    ensures IsClaimEmoji(customEmotes, e) <==> ClaimEmojiFilter.IsClaimEmoji(customEmotes, e)
  {
  }

  /** With custom emotes on any emoji counts; otherwise exactly the Unicode hearts do. */
  lemma IsClaimEmojiSpec(customEmotes: bool, e: Emoji)
    ensures customEmotes ==> IsClaimEmoji(customEmotes, e)
    ensures !customEmotes ==> (IsClaimEmoji(customEmotes, e) <==> e.Local? && e.name in HeartNames)
  {
  }
}
