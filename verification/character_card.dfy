/** The character card (`src/components/CharacterCard.tsx`): the style class,
    the last-chat label and the recent-activity dot. */
module CharacterCard {
  import opened Wrappers
  import opened Text
  import opened Types
  import opened TimeFormat
  import ConversationHistory

  /** `getStyleFromConversationStyle`: the card class of each style. The
      map lists all six styles, so its `"bg-card"` fallback is never taken. */
  function StyleClass(s: Style): (cls: string)
    ensures IsPrefix("bg-", cls) && cls != "bg-card"
  {
    match s
    case Romantic => "bg-card border-primary/20"
    case Friendly => "bg-card border-border"
    case Flirty => "bg-card border-primary/20"
    case Mysterious => "bg-muted/50 border-border"
    case Caring => "bg-accent/5 border-border"
    case Playful => "bg-card border-border"
  }

  const NeverChatted: string := "Nunca conversou"

  /** `formatLastChat`: "never" without a date, otherwise the shared
      hours/days label. */
  function FormatLastChat(lastChatAt: Option<int>, now: int, dateText: string): (s: string)
    ensures lastChatAt.None? ==> s == NeverChatted
    ensures lastChatAt.Some? && now - lastChatAt.value < Hour ==> s == "Agora mesmo"
    ensures lastChatAt.Some? && 7 * Day <= now - lastChatAt.value ==> s == dateText
  {
    match lastChatAt
    case None => NeverChatted
    case Some(t) => FormatElapsed(now - t, dateText)
  }

  /** The card and the history screen label a date the same way. */
  lemma SameLabelAsHistory(t: int, now: int, dateText: string)
    ensures FormatLastChat(Some(t), now, dateText) == ConversationHistory.FormatDate(t, now, dateText)
  {
  }

  /** The dot on the avatar: a last chat less than a day ago. */
  predicate ShowsRecentDot(c: Character, now: int) {
    c.lastChatAt.Some? && now - c.lastChatAt.value < Day
  }

  /** The dot shows exactly when the last-chat label is "just now" or an
      hours label. */
  lemma RecentDotIffHoursLabel(c: Character, now: int)
    ensures ShowsRecentDot(c, now) <==>
              c.lastChatAt.Some? && (Bucket(now - c.lastChatAt.value).JustNow? || Bucket(now - c.lastChatAt.value).HoursAgo?)
  {
  }
}
