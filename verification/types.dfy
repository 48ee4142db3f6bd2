/** The records of the application (`src/types/character.ts`,
    `src/types/templates.ts`, `src/types/settings.ts`).

    Dates are integer milliseconds since the epoch, numeric fields that the UI
    treats as fractions (temperature, scores, ratings) are `real`, optional
    fields are `Option`s, and every string-literal union is an enumeration
    with its wire tag and the inverse parser. */
module Types {
  import opened Wrappers

  // ---------------------------------------------------------------------------
  // Enumerations
  // ---------------------------------------------------------------------------

  /** `Character.conversationStyle`: exactly six tags. */
  datatype Style = Romantic | Friendly | Flirty | Mysterious | Caring | Playful

  const AllStyles: seq<Style> := [Romantic, Friendly, Flirty, Mysterious, Caring, Playful]

  function StyleTag(s: Style): string {
    match s
    case Romantic => "romantic"
    case Friendly => "friendly"
    case Flirty => "flirty"
    case Mysterious => "mysterious"
    case Caring => "caring"
    case Playful => "playful"
  }

  /** Reads a style tag; any other string is not a style. */
  function ParseStyle(t: string): (r: Option<Style>)
    ensures r.Some? ==> StyleTag(r.value) == t
    ensures r.None? ==> forall s: Style :: StyleTag(s) != t
  {
    if t == "romantic" then Some(Romantic)
    else if t == "friendly" then Some(Friendly)
    else if t == "flirty" then Some(Flirty)
    else if t == "mysterious" then Some(Mysterious)
    else if t == "caring" then Some(Caring)
    else if t == "playful" then Some(Playful)
    else None
  }

  /** Every style is listed once, and its tag reads back as itself. */
  lemma StyleTagRoundTrip(s: Style)
    ensures ParseStyle(StyleTag(s)) == Some(s)
    ensures s in AllStyles && |AllStyles| == 6
    ensures forall i, j :: 0 <= i < j < |AllStyles| ==> AllStyles[i] != AllStyles[j]
  {
  }

  /** `Scenario.atmosphere`: exactly six tags. */
  datatype Atmosphere = AtmRomantic | AtmMysterious | Adventurous | Casual | Dramatic | AtmPlayful

  function AtmosphereTag(a: Atmosphere): string {
    match a
    case AtmRomantic => "romantic"
    case AtmMysterious => "mysterious"
    case Adventurous => "adventurous"
    case Casual => "casual"
    case Dramatic => "dramatic"
    case AtmPlayful => "playful"
  }

  function ParseAtmosphere(t: string): (r: Option<Atmosphere>)
    ensures r.Some? ==> AtmosphereTag(r.value) == t
    ensures r.None? ==> forall a: Atmosphere :: AtmosphereTag(a) != t
  {
    if t == "romantic" then Some(AtmRomantic)
    else if t == "mysterious" then Some(AtmMysterious)
    else if t == "adventurous" then Some(Adventurous)
    else if t == "casual" then Some(Casual)
    else if t == "dramatic" then Some(Dramatic)
    else if t == "playful" then Some(AtmPlayful)
    else None
  }

  lemma AtmosphereTagRoundTrip(a: Atmosphere)
    ensures ParseAtmosphere(AtmosphereTag(a)) == Some(a)
  {
  }

  /** `TemplateCategory`: exactly ten tags. */
  datatype TemplateCategory =
    | Romance | Friendship | Professional | Fantasy | Anime
    | Historical | SciFi | Mystery | Adventure | Custom

  function CategoryTag(c: TemplateCategory): string {
    match c
    case Romance => "romance"
    case Friendship => "friendship"
    case Professional => "professional"
    case Fantasy => "fantasy"
    case Anime => "anime"
    case Historical => "historical"
    case SciFi => "sci-fi"
    case Mystery => "mystery"
    case Adventure => "adventure"
    case Custom => "custom"
  }

  function ParseCategory(t: string): (r: Option<TemplateCategory>)
    ensures r.Some? ==> CategoryTag(r.value) == t
    ensures r.None? ==> forall c: TemplateCategory :: CategoryTag(c) != t
  {
    if t == "romance" then Some(Romance)
    else if t == "friendship" then Some(Friendship)
    else if t == "professional" then Some(Professional)
    else if t == "fantasy" then Some(Fantasy)
    else if t == "anime" then Some(Anime)
    else if t == "historical" then Some(Historical)
    else if t == "sci-fi" then Some(SciFi)
    else if t == "mystery" then Some(Mystery)
    else if t == "adventure" then Some(Adventure)
    else if t == "custom" then Some(Custom)
    else None
  }

  lemma CategoryTagRoundTrip(c: TemplateCategory)
    ensures ParseCategory(CategoryTag(c)) == Some(c)
  {
  }

  /** `RelationshipStatus.mood`: exactly eight values. */
  datatype Mood = Happy | Neutral | Sad | Angry | Excited | Confused | Loving | MoodPlayful

  function MoodTag(m: Mood): string {
    match m
    case Happy => "happy"
    case Neutral => "neutral"
    case Sad => "sad"
    case Angry => "angry"
    case Excited => "excited"
    case Confused => "confused"
    case Loving => "loving"
    case MoodPlayful => "playful"
  }

  function ParseMood(t: string): (r: Option<Mood>)
    ensures r.Some? ==> MoodTag(r.value) == t
    ensures r.None? ==> forall m: Mood :: MoodTag(m) != t
  {
    if t == "happy" then Some(Happy)
    else if t == "neutral" then Some(Neutral)
    else if t == "sad" then Some(Sad)
    else if t == "angry" then Some(Angry)
    else if t == "excited" then Some(Excited)
    else if t == "confused" then Some(Confused)
    else if t == "loving" then Some(Loving)
    else if t == "playful" then Some(MoodPlayful)
    else None
  }

  lemma MoodTagRoundTrip(m: Mood)
    ensures ParseMood(MoodTag(m)) == Some(m)
  {
  }

  /** `UserSettings.theme`. */
  datatype Theme = Light | Dark | System

  function ThemeTag(t: Theme): string {
    match t
    case Light => "light"
    case Dark => "dark"
    case System => "system"
  }

  function ParseTheme(t: string): (r: Option<Theme>)
    ensures r.Some? ==> ThemeTag(r.value) == t
    ensures r.None? ==> forall th: Theme :: ThemeTag(th) != t
  {
    if t == "light" then Some(Light)
    else if t == "dark" then Some(Dark)
    else if t == "system" then Some(System)
    else None
  }

  lemma ThemeTagRoundTrip(t: Theme)
    ensures ParseTheme(ThemeTag(t)) == Some(t)
  {
  }

  // ---------------------------------------------------------------------------
  // src/types/character.ts
  // ---------------------------------------------------------------------------

  datatype Character = Character(
    id: string,
    name: string,
    avatar: Option<string>,
    age: Option<int>,
    personality: string,
    background: string,
    interests: seq<string>,
    conversationStyle: Style,
    memoryContext: string,
    customInstructions: string,
    aiModel: string,
    temperature: real,
    maxTokens: int,
    systemPrompt: string,
    createdAt: int,
    lastChatAt: Option<int>,
    totalMessages: int)

  /** One chat line; `isUser` separates the human's turns from generated ones. */
  datatype Message = Message(
    id: string,
    characterId: string,
    content: string,
    isUser: bool,
    timestamp: int,
    isTyping: Option<bool>)

  /** The persisted transcript of one character, oldest message first. */
  datatype ChatSession = ChatSession(
    id: string,
    characterId: string,
    messages: seq<Message>,
    createdAt: int,
    lastMessageAt: int)

  /** Five optional provider keys plus the routing choice and the (unused by
      the request) global sampling settings. */
  datatype AIConfig = AIConfig(
    openaiApiKey: Option<string>,
    anthropicApiKey: Option<string>,
    openRouterApiKey: Option<string>,
    cohereApiKey: Option<string>,
    groqApiKey: Option<string>,
    selectedModel: string,
    temperature: real,
    maxTokens: int)

  // ---------------------------------------------------------------------------
  // src/types/templates.ts
  // ---------------------------------------------------------------------------

  /** `Omit<Character, 'id' | 'createdAt' | 'lastChatAt' | 'totalMessages'>` */
  datatype TemplateBody = TemplateBody(
    name: string,
    avatar: Option<string>,
    age: Option<int>,
    personality: string,
    background: string,
    interests: seq<string>,
    conversationStyle: Style,
    memoryContext: string,
    customInstructions: string,
    aiModel: string,
    temperature: real,
    maxTokens: int,
    systemPrompt: string)

  /** The body of a character: everything but its identity and its history. */
  function BodyOf(c: Character): (b: TemplateBody)
    ensures b.name == c.name && b.personality == c.personality && b.interests == c.interests
  {
    TemplateBody(c.name, c.avatar, c.age, c.personality, c.background, c.interests,
                 c.conversationStyle, c.memoryContext, c.customInstructions, c.aiModel,
                 c.temperature, c.maxTokens, c.systemPrompt)
  }

  /** A new character from a body, with the four omitted fields supplied. */
  function Instantiate(b: TemplateBody, id: string, now: int): (c: Character)
    ensures c.id == id && c.createdAt == now && c.lastChatAt.None? && c.totalMessages == 0
  {
    Character(id, b.name, b.avatar, b.age, b.personality, b.background, b.interests,
              b.conversationStyle, b.memoryContext, b.customInstructions, b.aiModel,
              b.temperature, b.maxTokens, b.systemPrompt, now, None, 0)
  }

  /** A body carries exactly the non-omitted fields: instantiating it and
      taking the body back loses nothing, and a character is its body plus the
      four omitted fields. */
  lemma BodyRoundTrip(b: TemplateBody, c: Character)
    ensures BodyOf(Instantiate(b, "", 0)) == b
    ensures Instantiate(BodyOf(c), c.id, c.createdAt).(lastChatAt := c.lastChatAt,
                                                     totalMessages := c.totalMessages) == c
  {
  }

  /** `Omit<Character, 'id' | 'createdAt' | 'totalMessages'>`, what the
      character form hands to its owner: a body plus the last-chat date. */
  datatype CharacterDraft = CharacterDraft(body: TemplateBody, lastChatAt: Option<int>)

  /** `{ ...c, ...draft }`: every drafted field replaced, identity, creation
      date and message count kept. */
  function ApplyDraft(c: Character, d: CharacterDraft): (r: Character)
    ensures r.id == c.id && r.createdAt == c.createdAt && r.totalMessages == c.totalMessages
    ensures BodyOf(r) == d.body && r.lastChatAt == d.lastChatAt
  {
    Instantiate(d.body, c.id, c.createdAt).(lastChatAt := d.lastChatAt, totalMessages := c.totalMessages)
  }

  datatype CharacterTemplate = CharacterTemplate(
    id: string,
    name: string,
    description: string,
    category: TemplateCategory,
    tags: seq<string>,
    template: TemplateBody,
    isCustom: bool,
    createdAt: int,
    usageCount: int,
    rating: real)

  datatype Scenario = Scenario(
    id: string,
    name: string,
    description: string,
    setting: string,
    atmosphere: Atmosphere,
    contextPrompt: string,
    tags: seq<string>,
    isActive: bool,
    createdAt: int)

  /** Scores are documented as lying in [0, 100]. `preferences` (an untyped
      record that no core operation reads) is not modelled. */
  datatype RelationshipStatus = RelationshipStatus(
    characterId: string,
    level: real,
    mood: Mood,
    trust: real,
    romance: real,
    friendship: real,
    lastInteraction: int,
    importantEvents: seq<string>)

  predicate InPercentRange(x: real) {
    0.0 <= x <= 100.0
  }

  /** The documented range of the four scores. */
  predicate ScoresInRange(r: RelationshipStatus) {
    InPercentRange(r.level) && InPercentRange(r.trust)
    && InPercentRange(r.romance) && InPercentRange(r.friendship)
  }

  // ---------------------------------------------------------------------------
  // src/types/settings.ts
  // ---------------------------------------------------------------------------

  datatype UserSettings = UserSettings(
    theme: Theme,
    autoSave: bool,
    maxMessagesInMemory: int,
    defaultTemperature: real,
    defaultMaxTokens: int,
    showTypingIndicator: bool,
    soundEnabled: bool,
    compactMode: bool,
    language: string)

  /** A saved conversation (`ConversationHistory` in the source). The stored
      `messageCount` is independent of `messages`. */
  datatype Conversation = Conversation(
    id: string,
    characterId: string,
    characterName: string,
    title: string,
    messages: seq<Message>,
    createdAt: int,
    lastMessageAt: int,
    isFavorite: bool,
    messageCount: int)

  datatype UserStats = UserStats(
    totalCharacters: int,
    totalConversations: int,
    totalMessages: int,
    favoriteCharacters: seq<string>,
    mostUsedCharacter: Option<string>,
    averageMessageLength: real,
    longestConversation: int,
    firstUseDate: int,
    lastActiveDate: int)
}
