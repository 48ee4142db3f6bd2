# Persona Realista — a Dafny model of its logic

Persona Realista is a client-side roleplay chat application. The user creates
characters, chats with them through one of five AI providers (OpenAI,
Anthropic, OpenRouter, Cohere, Groq), and manages scenarios, templates,
relationships, statistics and import/export of characters. This project models
the application's logic in Dafny. It uses pure functions over immutable records
and sequences, and proves the contracts that logic promises.

Module layout. There is one module per source file, plus shared helpers:

- `Wrappers` holds `Option` and `Result`.
- `Seqs` holds filter, stable insertion sort, sum and max.
- `Text` holds prefix and substring tests, trim, lower-casing, join and decimal integers.
- `JsValues` holds the JavaScript falsy `||` defaults.
- `TagLists` holds the shared "add if absent" and "remove every equal" list edits.
- `TimeFormat` holds the "x ago" buckets that CharacterCard and ConversationHistory share.
- `Types` models `src/types/*.ts`.
- `AIService` models `src/services/aiService.ts`.
- `IndexPage` models `src/pages/Index.tsx`.
- The other modules each model one component of the same name.

Conventions:

- **Time and identifiers.** Time is an integer number of milliseconds. Clocks and identifier generators are parameters: `now`, `id`, and `freshId: nat -> string`.
- **Provider calls.** A call to a provider is an oracle `send: Request -> Reply`. A reply is one of:
  - a network failure;
  - an HTTP status with a body from which the reply text was extracted (possibly absent);
  - a body that could not be read.
- **Locale.** `toLowerCase` is ASCII lower-casing. `localeCompare` is a caller-supplied rank `collate: string -> real`. `toLocaleDateString` is an opaque date string passed in.
- **JSON and base64.** These are oracles. `parseJson` returns `None` when the parser throws. `decodeShare` returns `None` when decoding a share code throws.

## Model

| member | source | states |
|---|---|---|
| AIService.ProviderOf | src/services/aiService.ts:112-119 | The provider is decided by the first rule that applies: `gpt-` gives OpenAI, `claude-` gives Anthropic, any slash gives OpenRouter, `command-` gives Cohere, `llama`/`mixtral` gives Groq, anything else gives OpenAI. Each provider is characterised both ways (iff). |
| AIService.DefaultSystemPrompt | src/services/aiService.ts:84-110 | The default prompt starts with "Você é " and contains the name, age, personality, background, every interest, the ", "-joined interests, the style tag and the custom instructions. |
| AIService.SystemPromptFor | src/services/aiService.ts:52-56 | The system prompt is the character's own when non-empty. Otherwise it is the default prompt, which names the character and its personality. It is never empty. |
| AIService.MemoryEntries | src/services/aiService.ts:59-64 | There is one system entry exactly when the memory note is non-blank after trim. |
| AIService.EntryOf | src/services/aiService.ts:67-73 | A history message becomes a user entry iff `isUser`, otherwise an assistant entry, with its content unchanged. |
| AIService.Window | src/services/aiService.ts:67 | The window is the last min(20, \|history\|) messages, in original order (a suffix of the history). |
| AIService.WindowEntries | src/services/aiService.ts:67-73 | The window's entries correspond one-to-one to the window messages, and none is a system entry. |
| AIService.BuildContext | src/services/aiService.ts:51-82 | The context is: system prompt first; the memory entry at index 1 iff memory is present; then the window entries in order; the user's message last. Its length is 2 + [memory] + min(20, \|history\|). |
| AIService.NonSystem | src/services/aiService.ts:155 | Dropping system entries keeps an order-preserving subsequence with no system entry. |
| AIService.FirstSystemContent | src/services/aiService.ts:154 | The extracted system text is the content of the first system entry, or "" when there is none. |
| AIService.CohereTurnOf | src/services/aiService.ts:229-232 | A Cohere turn is USER iff the entry is a user entry, and it carries the entry's text. |
| AIService.CohereTurns | src/services/aiService.ts:229-232 | The chat history maps each entry to its Cohere turn, position by position. |
| AIService.RequestFor | src/services/aiService.ts:121-272 | The request carries the selected model and the character's temperature and token limit. It is an OpenAI-style chat request (with the whole context) iff the provider is OpenAI, OpenRouter or Groq, an Anthropic request iff Anthropic, and a Cohere request iff Cohere. |
| AIService.MissingKeyMessage | src/services/aiService.ts:122-123 | The missing-key error names the provider. |
| AIService.StatusMessage | src/services/aiService.ts:140-141 | The status error names the provider, the status code and the status text. |
| AIService.Normalise | src/services/aiService.ts:140-145 | There is no error iff the reply is a 2xx with a readable body. An error always has empty content. A non-2xx error names the provider and status. A 2xx without reply text gives "" and no error. A 2xx with text gives that text. |
| AIService.GenerateResponse | src/services/aiService.ts:16-49 | A missing key for the selected model's provider gives empty content and the missing-key error. Any error has empty content. Success implies the key was present. With the key, the result follows the provider's reply to the turn's request: a failed exchange reports its message; a non-2xx status gives an error naming the provider and the status; an unreadable body reports its message; a 2xx reply gives its text, or "" without error when the reply has no text (the per-provider calls at aiService.ts:140-145 and the catch at aiService.ts:42-47). |
| AIService.MissingKeyIssuesNoRequest | src/services/aiService.ts:16-49 | Without a key the result does not depend on the network oracle at all (no request is made), and the error names the provider. |
| AIService.OnlyTheShapedRequestMatters | src/services/aiService.ts:16-49 | With a key, two oracles that agree on the shaped request give the same result. The outcome depends only on the reply to that one request. |
| AIService.CharacterModelIgnored | src/services/aiService.ts:26 | The character's `aiModel` has no influence: routing and the request model come from `config.selectedModel`. |
| AIService.ConfigSamplingIgnored | src/services/aiService.ts:133-136 | The config's temperature and token limit have no influence; the character's are sent. |
| AIService.NonSystemOfContext | src/services/aiService.ts:155 | The non-system part of a context is exactly the window entries followed by the user's turn. |
| AIService.AnthropicDropsMemory | src/services/aiService.ts:148-179 | The Anthropic request sends the system prompt as `system` and only the window plus the user turn as messages, so the memory note is dropped. |
| AIService.CohereSplitsLastTurn | src/services/aiService.ts:210-245 | The Cohere request sends the user's message as `message`, the system prompt as `preamble`, and the window as the remapped chat history. |
| AIService.CohereHistoryRoles | src/services/aiService.ts:216-233 | Each Cohere history turn is USER iff its window message is the user's, and carries that message's text. |
| IndexPage.FilterCharacters | src/pages/Index.tsx:99-102 | The result is an order-preserving subsequence of the characters. It holds exactly those whose lower-cased name or personality contains the lower-cased query. |
| IndexPage.EmptyQueryKeepsAll | src/pages/Index.tsx:99-102 | An empty query keeps every character, in order. |
| IndexPage.CreateCharacter | src/pages/Index.tsx:104-115 | One character is appended, with the new id, creation time `now`, 0 messages and the draft's fields. Earlier characters and the sessions are unchanged. |
| IndexPage.EditCharacter | src/pages/Index.tsx:117-131 | Without an edited character nothing changes. Otherwise only the characters with its id are replaced by the draft applied to it (which keeps id, creation time and message count). Sessions are untouched. |
| IndexPage.DeleteCharacter | src/pages/Index.tsx:133-139 | No character and no session with the id remains. Every other character and session is kept, in order. |
| IndexPage.OpenChat | src/pages/Index.tsx:141-153 | Opening a chat shows the first session of the character, or an empty transcript when it has none. |
| IndexPage.UpsertSession | src/pages/Index.tsx:204-207 | The new session ends the list and is the only one of its character. The other characters' sessions are kept in order. |
| IndexPage.RecordChat | src/pages/Index.tsx:210-216 | Only the matching characters change, and only in the last-chat time and the message count, which is set (not incremented). |
| IndexPage.SendMessage | src/pages/Index.tsx:155-224 | Without a selection nothing happens. The provider is asked with the transcript from before the new message. On failure nothing is persisted and only the user's message is added on screen. On success the transcript gains exactly the user's message and the reply, becomes the character's only session, and sets its statistics. |
| IndexPage.SendThenOpenShowsTranscript | src/pages/Index.tsx:141-216 | After a successful send, opening the character's chat shows the new transcript, which is two messages longer. |
| IndexPage.OpenAfterUpsert | src/pages/Index.tsx:141-153 | After an upsert, opening that character shows the upserted session's messages. |
| IndexPage.SendWithoutKeyFails | src/pages/Index.tsx:178-180 | Without the selected provider's key a send persists nothing and reports an error naming the provider. |
| IndexPage.DeleteRemovesChat | src/pages/Index.tsx:133-139 | After deleting a character, opening its chat shows an empty transcript. |
| ScenarioManager.FilterScenarios | src/components/ScenarioManager.tsx:94-102 | The result is an order-preserving subsequence of the scenarios. It holds exactly the active scenarios whose atmosphere matches the selection (or all) and whose name, description or a tag contains the search text. |
| ScenarioManager.CreateScenario | src/components/ScenarioManager.tsx:116-138 | Creation is rejected iff name or description is blank. Otherwise exactly one active scenario is appended, with the trimmed texts, the new id and time. |
| ScenarioManager.EditScenario | src/components/ScenarioManager.tsx:140-160 | Editing is rejected iff nothing is being edited or the form is invalid. Otherwise only the scenarios with the edited id change: they get the trimmed texts and keep id, creation time and active flag. |
| ScenarioManager.DeleteScenario | src/components/ScenarioManager.tsx:162-167 | Deletion is soft: only the matching scenarios become inactive. Length and every other scenario are unchanged. |
| ScenarioManager.DeletedNeverListed | src/components/ScenarioManager.tsx:94-102 | A deleted scenario never appears in the filtered list, whatever the search and atmosphere. |
| ScenarioManager.CreatedIsListed | src/components/ScenarioManager.tsx:116-138 | A valid new scenario is listed under an empty search and its own atmosphere. |
| ScenarioManager.AddTag | src/components/ScenarioManager.tsx:182-190 | The trimmed tag is appended only if it is non-blank and new; the input is then cleared. Nothing else in the form changes. |
| ScenarioManager.RemoveTag | src/components/ScenarioManager.tsx:192-197 | Every equal tag is removed, the rest keep their order, and nothing else in the form changes. |
| ScenarioManager.StartEdit | src/components/ScenarioManager.tsx:169-180 | The edit form opens with no pending tag, and it passes validation iff the scenario's name and description are not blank. |
| ScenarioManager.EditOpenedScenario | src/components/ScenarioManager.tsx:140-180 | Saving a scenario's edit form unchanged succeeds and stores that scenario with its texts trimmed, when its name and description are not blank. |
| ScenarioManager.EditRoundTrip | src/components/ScenarioManager.tsx:140-180 | Opening a scenario for editing and saving at once changes nothing, when its texts are already trimmed and non-empty. |
| ScenarioManager.AtmosphereIcon | src/components/ScenarioManager.tsx:199-209 | Every atmosphere has an icon. |
| ScenarioManager.AtmosphereIconInjective | src/components/ScenarioManager.tsx:199-209 | Different atmospheres have different icons. |
| AdvancedSearch.AgeBucket | src/components/AdvancedSearch.tsx:54 | The age tag is "jovem" iff the age is truthy and under 25, "maduro" iff it is truthy and over 40, and "adulto" otherwise. |
| AdvancedSearch.CharacterTags | src/components/AdvancedSearch.tsx:136-147 | A character's filter tags are exactly its non-empty interests and derived tags: style, model prefix before '-', and age bucket. |
| AdvancedSearch.OfferedTags | src/components/AdvancedSearch.tsx:48-58 | A character offers exactly its interests plus its non-empty derived tags. |
| AdvancedSearch.OfferedCons | src/components/AdvancedSearch.tsx:48-58 | A tag is offered by a non-empty list iff the head or the tail offers it. |
| AdvancedSearch.AllOfferedTags | src/components/AdvancedSearch.tsx:48-58 | The collected tags are exactly those some character offers. |
| AdvancedSearch.AvailableTags | src/components/AdvancedSearch.tsx:48-58 | The available tags are strictly sorted (so without duplicates) and are exactly those some character offers. |
| AdvancedSearch.FilterableTagsAreOffered | src/components/AdvancedSearch.tsx:48-58 | Every tag the tag filter can match is offered in the tag list. |
| AdvancedSearch.PassesAllStages | src/components/AdvancedSearch.tsx:70-147 | Passing the seven stages in order is the same as the one written-out condition. Age and message-count ranges always apply, so an absent or zero age never passes. |
| AdvancedSearch.PipelineIsOneFilter | src/components/AdvancedSearch.tsx:70-147 | Running the stages one after another equals one filter by their conjunction. |
| AdvancedSearch.SortCharacters | src/components/AdvancedSearch.tsx:149-173 | The result is a permutation of the input, ordered by the chosen key: non-decreasing for ascending, non-increasing for descending. |
| AdvancedSearch.SortCharactersStable | src/components/AdvancedSearch.tsx:151 | `Array.prototype.sort` is stable: in either direction, the characters with one sort value appear in their input order. |
| AdvancedSearch.FilterCharactersMeaning | src/components/AdvancedSearch.tsx:70-187 | The character result is a permutation of the filtered input. It holds exactly the input characters passing every stage, all with a truthy age and a message count in range. |
| AdvancedSearch.ConversationStages | src/components/AdvancedSearch.tsx:75-134 | The conversation stages keep exactly the conversations matching the query (when non-blank) and the date bounds. |
| AdvancedSearch.FilterConversations | src/components/AdvancedSearch.tsx:175-186 | The conversation result is empty when conversations are excluded. Otherwise it is a permutation of the staged conversations, ordered by last message in the chosen direction. |
| AdvancedSearch.AddTag | src/components/AdvancedSearch.tsx:201-208 | The tag is present afterwards and nothing else is added. The other filters are unchanged. |
| AdvancedSearch.AddTagIdempotent | src/components/AdvancedSearch.tsx:201-208 | Adding the same tag twice is the same as adding it once. |
| AdvancedSearch.RemoveTag | src/components/AdvancedSearch.tsx:194-199 | The tag is absent afterwards, the rest keep their order, and the other filters are unchanged. |
| AdvancedSearch.ActiveFiltersCount | src/components/AdvancedSearch.tsx:210-215 | The count is between the number of tags and that plus 3. It is 0 iff the query is blank, no style is chosen, no tags are selected and there are no date bounds. |
| AdvancedSearch.QueryCounted | src/components/AdvancedSearch.tsx:210-215 | Typing a query where the query was blank adds exactly one active filter. A change that keeps it blank, or keeps it non-blank, leaves the count unchanged. |
| AdvancedSearch.StyleCounted | src/components/AdvancedSearch.tsx:210-215 | Choosing a style where none was chosen adds exactly one active filter, and clearing a chosen style removes exactly one. |
| AdvancedSearch.DateBoundCounted | src/components/AdvancedSearch.tsx:210-215 | The first date bound adds exactly one active filter; a second bound adds none. |
| AdvancedSearch.AddTagCounted | src/components/AdvancedSearch.tsx:201-215 | Selecting a tag not yet selected adds exactly one active filter; re-selecting one adds none. |
| AdvancedSearch.RemoveTagCounted | src/components/AdvancedSearch.tsx:194-215 | Removing a tag subtracts one active filter per selected copy of it: exactly one for a tag selected once. |
| AdvancedSearch.DefaultFiltersInactive | src/components/AdvancedSearch.tsx:31-41 | The initial filters count as no active filter. |
| ConversationHistory.FilterConversations | src/components/ConversationHistory.tsx:45-73 | The result is a sub-multiset of the input. It holds exactly the conversations matching the query (none applied when blank) and the kind (favorites: `isFavorite`; recent: last message within 30 days). It is newest first. |
| ConversationHistory.Matching | src/components/ConversationHistory.tsx:46-66 | The two filter stages keep a sub-multiset of the input, holding exactly the conversations that match the query (when it is not blank) and the kind. |
| ConversationHistory.FilterConversationsIsOneFilter | src/components/ConversationHistory.tsx:45-73 | The list is a reordering of one filter of the input by both the query and the kind: each match appears exactly as often as in the input. |
| ConversationHistory.MatchingIsOneFilter | src/components/ConversationHistory.tsx:46-66 | The query stage followed by the kind stage keeps exactly what a single filter by both tests keeps, in input order. |
| ConversationHistory.NoFilterKeepsAll | src/components/ConversationHistory.tsx:45-73 | A blank query with "all" keeps every conversation (as a multiset). |
| ConversationHistory.FormatDate | src/components/ConversationHistory.tsx:75-85 | Under an hour gives "Agora mesmo"; seven days or more gives the locale date. |
| ConversationHistory.CharacterAvatar | src/components/ConversationHistory.tsx:87-89 | The avatar is "" when no character has the id. When one does, it is the first such character's avatar ("" if it has none). Conversely, a non-empty avatar belongs to the first character with that id. |
| TimeFormat.Bucket | src/components/CharacterCard.tsx:34-41 | The buckets split the differences: under 1h; 1h to 24h with h = floor(diff/1h) in 1..23; 1d to 7d with d = floor(diff/1d) in 1..6; at least 7d. |
| TimeFormat.FormatElapsed | src/components/ConversationHistory.tsx:75-85 | The label is "Agora mesmo" under an hour, "{h}h atrás" with the floored hour count under a day, "{d}d atrás" with the floored day count under a week, and otherwise the date. |
| TimeFormat.CountReadsBack | src/components/CharacterCard.tsx:39-40 | The number in an "{n}h atrás" or "{n}d atrás" label reads back as n. |
| CharacterCard.StyleClass | src/components/CharacterCard.tsx:19-29 | Every style gets a class from the style map, never the fallback `bg-card`. Romantic and flirty share a class, and so do friendly and playful. |
| CharacterCard.FormatLastChat | src/components/CharacterCard.tsx:31-42 | No date gives "Nunca conversou", under an hour gives "Agora mesmo", and a week or more gives the locale date. |
| CharacterCard.SameLabelAsHistory | src/components/CharacterCard.tsx:31-42 | For a present date the card's label is the history list's label. |
| CharacterCard.RecentDotIffHoursLabel | src/components/CharacterCard.tsx:58 | The recent dot shows exactly when the label is "just now" or an hours label, that is under 24 hours. |
| StatsPanel.RoundDiv | src/components/StatsPanel.tsx:40-51 | `Math.round(a / b)` for b > 0: the result is within one half of a/b, halves rounding up. |
| StatsPanel.DaysBetween | src/components/StatsPanel.tsx:79 | The day count is at least 1 and is the ceiling of the elapsed days when positive. |
| StatsPanel.TotalMessages | src/components/StatsPanel.tsx:30 | The total is the number of messages over all sessions and bounds every session's length. |
| StatsPanel.TotalIsAllMessages | src/components/StatsPanel.tsx:30-48 | The sum of session lengths is the length of the flattened message list. |
| StatsPanel.UsageOf | src/components/StatsPanel.tsx:33-36 | A character's usage keeps the character, and its counts lie within the overall totals. |
| StatsPanel.UsageRows | src/components/StatsPanel.tsx:33-36 | There is one usage row per character, in character order. |
| StatsPanel.CharacterUsage | src/components/StatsPanel.tsx:33-37 | The usage list is a permutation of the per-character rows: every character appears, each row is that character's usage, and the list is sorted by message count, non-increasing. |
| StatsPanel.CharacterUsageStable | src/components/StatsPanel.tsx:37 | Ties keep their order: the rows with one message count appear in the ranking in the order of their characters in `characters`. |
| StatsPanel.LeaderIsFirstMostUsed | src/components/StatsPanel.tsx:37-78 | With at least one character, the most active character is the first one in `characters` with the largest message count: none has more, and every character before it has fewer. |
| StatsPanel.RankingHeadIsMaximal | src/components/StatsPanel.tsx:37 | The head of the ranking is some character's row, and no row counts more messages. |
| StatsPanel.RankingHeadIsFirstTied | src/components/StatsPanel.tsx:37 | The first character whose count equals the head's is the head's character. |
| StatsPanel.UsageRowsReordered | src/components/StatsPanel.tsx:33-37 | Any reordering of the per-character rows holds, in each row, that character's own usage, and holds every character's usage. |
| StatsPanel.MostActive | src/components/StatsPanel.tsx:78 | The most active character is absent iff there are no characters. Otherwise it is one with the maximal message count. |
| StatsPanel.BarPercent | src/components/StatsPanel.tsx:202 | Each usage bar is between 0 and 100 percent. |
| StatsPanel.MinCreated | src/components/StatsPanel.tsx:54-56 | The first-use date is the creation time of some session and no later than any. |
| StatsPanel.MaxLastMessage | src/components/StatsPanel.tsx:58-60 | The last-active date is the last message time of some session and no earlier than any. |
| StatsPanel.LongestAtMostTotal | src/components/StatsPanel.tsx:45 | The longest conversation is no longer than the total. |
| StatsPanel.AverageWithinLongest | src/components/StatsPanel.tsx:40-45 | The rounded average conversation length lies between 0 and the longest. |
| StatsPanel.ComputeStats | src/components/StatsPanel.tsx:29-81 | All the statistics together: the counts; the total as the flattened message count; the rounded averages (0 when there is nothing to average); 0 ≤ average ≤ longest ≤ total; the longest bounds every session; first and last dates are the earliest start and the latest last message, or `now` without sessions; the usage rows are the ranked usage table and the most active character is its head (none iff there are no characters); the recent count is the number of messages of the last seven days, at most the total; the longest conversation is the longest session's length; the days of use are the whole days from the first use to `now`, rounded up and at least one. |
| StatsPanel.DaysUsing | src/components/StatsPanel.tsx:79 | The days of use: the elapsed days from the first use to `now`, rounded up, and at least one. |
| StatsPanel.DaysUsingFromFirstUse | src/components/StatsPanel.tsx:79 | The reported days of use count from the reported first use date. |
| StatsPanel.ConversationAverage | src/components/StatsPanel.tsx:39-42 | The rounded mean session length, 0 without sessions, never more than the longest session. |
| StatsPanel.Longest | src/components/StatsPanel.tsx:44-45 | The longest session: at least every session's length, the length of some session (0 without sessions), and at most the total message count. |
| StatsPanel.MessageLengthAverage | src/components/StatsPanel.tsx:48-51 | The rounded mean content length of all messages, 0 without messages. |
| StatsPanel.FirstUse | src/components/StatsPanel.tsx:54-56 | The earliest session start, a lower bound of every session's start, or `now` without sessions. |
| StatsPanel.LastActive | src/components/StatsPanel.tsx:58-60 | The latest last message, an upper bound of every session's last message, or `now` without sessions. |
| StatsPanel.RecentActivity | src/components/StatsPanel.tsx:63-65 | The number of messages from the last seven days, at most the total. |
| StatsPanel.Leader | src/components/StatsPanel.tsx:78 | The character heading the usage ranking: one of the characters, and none iff there are none (which one among ties: StatsPanel.LeaderIsFirstMostUsed). |
| StatsPanel.ProgressColor | src/components/StatsPanel.tsx:91-96 | Green iff the percentage reaches 70, blue iff it is under 40, yellow otherwise. |
| RelationshipManager.InitialStatus | src/components/RelationshipManager.tsx:26-36 | A new record has in-range scores, neutral mood, romance 60 for romantic characters (else 30) and friendship 70 for friendly ones (else 40). |
| RelationshipManager.InitialStatuses | src/components/RelationshipManager.tsx:26-36 | There is one initial record per new character, in order. |
| RelationshipManager.Initialise | src/components/RelationshipManager.tsx:21-39 | Existing records stay first and unchanged, and every character gets a record. Each added record is the initial record of a character that had none. Nothing is added when all have one. |
| RelationshipManager.InitialiseCoversAll | src/components/RelationshipManager.tsx:21-39 | After initialisation every character has a record. |
| RelationshipManager.InitialiseKeepsRange | src/components/RelationshipManager.tsx:21-39 | Initialisation keeps every score within [0, 100]. |
| RelationshipManager.Clamp | src/components/RelationshipManager.tsx:81-86 | The result is within [0, 100], unchanged when already within, and 0 or 100 when below or above. |
| RelationshipManager.Nudge | src/components/RelationshipManager.tsx:81-86 | A score moved by a delta and clamped: the sum when it lies in [0, 100], otherwise the bound crossed. An in-range score never drops under a non-negative delta. |
| RelationshipManager.Boost | src/components/RelationshipManager.tsx:65 | The boost is min(2n, 10): between 0 and 10, and at least 2 once there is a message. |
| RelationshipManager.UpdateStatus | src/components/RelationshipManager.tsx:58-87 | Without a character or without recent messages the record is unchanged. Otherwise: the interaction time becomes now; the level moves by the boost (less 5 after a gap of more than seven days), trust by half the boost, friendship by 0.8 of it and, for romantic characters only, romance by the boost, each clamped to [0, 100]; the mood changes only after more than five messages; in-range trust and friendship never drop; an in-range level drops only after a gap of more than seven days; the range invariant is preserved. |
| RelationshipManager.UpdateAll | src/components/RelationshipManager.tsx:43-88 | One result per record, in order and with the same character. The range invariant is preserved. Records whose character is gone or quiet for a day are untouched. |
| RelationshipManager.QuietCharactersUntouched | src/components/RelationshipManager.tsx:58-62 | A record with no message in the last day is left as it was. |
| RelationshipManager.MessageAfterSilenceLowersLevel | src/components/RelationshipManager.tsx:65-81 | After more than seven silent days, one message takes a level of 50 to 47 (boost 2, decay 5). No message leaves it at 50. |
| RelationshipManager.ClosenessOf | src/components/RelationshipManager.tsx:121-128 | "Inseparáveis" iff the level is at least 90, "Estranhos" iff it is under 20. |
| RelationshipManager.LabelsDistinct | src/components/RelationshipManager.tsx:121-128 | Each closeness level has its own label text: two levels share a label iff they are the same level. |
| RelationshipManager.ClosenessIsHighestReached | src/components/RelationshipManager.tsx:121-128 | The label is the one with the highest threshold (90/75/60/40/20) the level reaches. |
| RelationshipManager.Rows | src/components/RelationshipManager.tsx:130-135 | Each listed record is paired with its own character, in record order. |
| RelationshipManager.SortedRelationships | src/components/RelationshipManager.tsx:130-136 | The list is a permutation of the rows. It holds exactly the records with an existing character, each paired with it, highest level first. |
| RelationshipManager.SortedRelationshipsFacts | src/components/RelationshipManager.tsx:130-136 | The membership facts of the sorted list, proved about its definition. |
| RelationshipManager.SortedRowsComplete | src/components/RelationshipManager.tsx:130-136 | Every record whose character exists appears in the sorted list. |
| TagLists.AddIfAbsent | src/components/AdvancedSearch.tsx:201-208 | The tag is present afterwards and nothing else is new. The list is unchanged if the tag was there, extended by it at the end otherwise. No duplicates are introduced. |
| TagLists.AddIfAbsentIdempotent | src/components/AdvancedSearch.tsx:201-208 | Adding twice equals adding once. |
| TagLists.AddTrimmed | src/components/ScenarioManager.tsx:182-190 | A blank or present trimmed entry changes nothing. Otherwise the trimmed entry is appended and the input cleared. Nothing else is added, and no duplicates are introduced. |
| TagLists.AddedEntryIsTrimmed | src/components/CharacterCreator.tsx:116-124 | An added entry is non-empty and already trimmed. |
| TagLists.RemoveAll | src/components/ScenarioManager.tsx:192-197 | Every equal entry is removed, the others are all kept, in order. |
| TagLists.RemoveAllCount | src/components/AdvancedSearch.tsx:194-199 | Removing a tag shortens the list by exactly the number of times the tag occurs. |
| TagLists.RemoveUndoesAdd | src/components/ScenarioManager.tsx:182-197 | Removing a freshly added tag restores the list. |
| Types.ParseStyle | src/types/character.ts:9 | Reading a style tag inverts the tag of a style and rejects any string that is not one of the six tags. |
| Types.StyleTagRoundTrip | src/types/character.ts:9 | Every style reads back from its tag; there are exactly six distinct styles. |
| Types.ParseAtmosphere | src/types/templates.ts:33 | Reading an atmosphere tag inverts the tag of an atmosphere and rejects any other string. |
| Types.AtmosphereTagRoundTrip | src/types/templates.ts:33 | Every atmosphere reads back from its tag. |
| Types.ParseCategory | src/types/templates.ts:16-26 | Reading a category tag inverts the tag of a category and rejects any other string. |
| Types.CategoryTagRoundTrip | src/types/templates.ts:16-26 | Every one of the ten categories reads back from its tag. |
| Types.ParseMood | src/types/templates.ts:43 | Reading a mood tag inverts the tag of a mood and rejects any other string. |
| Types.MoodTagRoundTrip | src/types/templates.ts:43 | Every one of the eight moods reads back from its tag. |
| Types.ParseTheme | src/types/settings.ts:2 | Reading a theme tag inverts the tag of a theme and rejects any other string. |
| Types.ThemeTagRoundTrip | src/types/settings.ts:2 | Each of light/dark/system reads back from its tag. |
| Types.BodyOf | src/types/templates.ts:9 | A character's template body keeps its name, personality and interests. |
| Types.Instantiate | src/types/templates.ts:9 | A body becomes a character with the given id and time, no last chat and 0 messages. |
| Types.BodyRoundTrip | src/types/templates.ts:9 | Body and character convert into each other without loss, apart from the four omitted fields. |
| Types.ApplyDraft | src/pages/Index.tsx:117-131 | Applying an edit keeps id, creation time and message count, and takes the body and last chat from the draft. |
| CharacterCreator.InitialForm | src/components/CharacterCreator.tsx:23-38 | A new form has age 25, romantic style, gpt-4, temperature 0.8 and 1000 tokens. An edited character's fields are copied, except that a falsy age, temperature, token limit or model takes the default, and a missing avatar becomes "". |
| CharacterCreator.AgeInput | src/components/CharacterCreator.tsx:161 | The age is never 0: unreadable text and a typed 0 give 25, and a non-zero number is kept. |
| CharacterCreator.AgeInputReadsTypedAge | src/components/CharacterCreator.tsx:161 | Typing a non-zero age in decimal sets exactly that age. |
| CharacterCreator.AddInterest | src/components/CharacterCreator.tsx:116-124 | The interest list and input change as the shared trimmed add prescribes; nothing else in the form changes. |
| CharacterCreator.RemoveInterest | src/components/CharacterCreator.tsx:126-131 | The interest is gone, every other interest is still present, and nothing else in the form changes. |
| CharacterCreator.GeneratedPrompt | src/components/CharacterCreator.tsx:84-114 | The prompt starts with "Você é " and contains the name, age, personality, background, every interest and their ", "-joined list, the style, the custom instructions and the memory note. |
| CharacterCreator.Submit | src/components/CharacterCreator.tsx:61-82 | Saving succeeds iff name and personality are non-blank; a blank name is reported first. A saved record carries the freshly generated prompt and every typed field: name, avatar, age, personality, background, interests, style, memory note, custom instructions, model, temperature, token limit and last chat date. |
| CharacterCreator.SubmitIgnoresStoredPrompt | src/components/CharacterCreator.tsx:74-79 | The prompt held by the form never reaches the saved record. |
| CharacterCreator.EditKeepsCharacter | src/components/CharacterCreator.tsx:23-82 | Opening a character with truthy fields and saving at once keeps every field except the regenerated prompt. |
| CharacterCreator.ZeroTemperatureBecomesDefault | src/components/CharacterCreator.tsx:23-38 | A temperature of 0 shows as 0.8 in the form. |
| ImportExport.Ids | src/components/CharacterImportExport.tsx:43-49 | The id list is position by position the characters' ids. |
| ImportExport.SelectAll | src/components/CharacterImportExport.tsx:43-49 | When all are selected the selection becomes empty, otherwise every id. |
| ImportExport.SelectAllToggles | src/components/CharacterImportExport.tsx:43-49 | Pressing "select all" twice from nothing selects everything and then nothing. |
| ImportExport.SelectOne | src/components/CharacterImportExport.tsx:51-57 | Checking appends the id. Unchecking removes it and keeps every other id. |
| ImportExport.Selection | src/components/CharacterImportExport.tsx:97 | The selected characters are exactly the listed ones whose id is selected, kept in list order. |
| ImportExport.Export | src/components/CharacterImportExport.tsx:59-77 | Export fails iff nothing is selected. Otherwise there is one entry per selected character, with its body and 0 messages (no id, creation or last-chat time). |
| ImportExport.ShareOf | src/components/CharacterImportExport.tsx:100-110 | A share record carries name, avatar, personality, background, interests, style, instructions, temperature and token limit. |
| ImportExport.ShareDataOf | src/components/CharacterImportExport.tsx:91-116 | Sharing fails iff nothing is selected. Otherwise it gives version "1.0" and one share record per selected character, in order. |
| ImportExport.ImportCharacter | src/components/CharacterImportExport.tsx:199-216 | An imported character gets the fresh id, time `now` and 0 messages. Each field is taken as read, or its default when absent or falsy: name "Personagem Importado", age 25, style friendly, model openrouter/auto, temperature 0.8, tokens 1000, empty texts. |
| ImportExport.ProcessImport | src/components/CharacterImportExport.tsx:193-220 | Import fails with "Formato de dados inválido" iff `characters` is not an array. Otherwise the output has one imported character per input record, in order, the i-th with fresh id i. |
| ImportExport.ImportedIdsDistinct | src/components/CharacterImportExport.tsx:199-201 | With an injective id source, imported characters have distinct ids. |
| ImportExport.ShareToRaw | src/components/CharacterImportExport.tsx:164-181 | A decoded share record gives the shared fields back, fixes age 25, empty memory, model openrouter/auto and empty prompt, and turns a falsy temperature or token limit into 0.8 or 1000. |
| ImportExport.ImportFromCode | src/components/CharacterImportExport.tsx:149-191 | Blank text is refused and kept. Text starting with '{' is read as a JSON document and anything else as a share code. Unreadable text is refused and kept. Once a document is read the box is cleared, and a document without a character array is reported as an invalid format. |
| ImportExport.ImportFromFile | src/components/CharacterImportExport.tsx:129-147 | An unreadable file is refused; a readable one is processed as an import document. |
| ImportExport.AsImportRecord | src/components/CharacterImportExport.tsx:65-77 | An exported entry read back as an import record has the entry's name, avatar and age. |
| ImportExport.FileRoundTrip | src/components/CharacterImportExport.tsx:59-220 | Exporting a selection with truthy fields and importing the file gives, in order, new characters with the same bodies, fresh ids, time `now` and 0 messages. |
| ImportExport.ShareRoundTripFields | src/components/CharacterImportExport.tsx:164-181 | Through a share code, name, avatar, personality, background, interests, style and instructions survive. Age, memory, model and prompt take the fixed values. A zero temperature comes back as 0.8 and zero tokens as 1000. |
| ImportExport.Base64IsShareCode | src/components/CharacterImportExport.tsx:150-160 | A base64 code is never blank and never starts with '{', so it is always read as a share code. |
| ImportExport.ShareCodeRoundTrip | src/components/CharacterImportExport.tsx:91-191 | Importing a generated share code clears the box and gives one shared copy per selected character, in order. |
| AIConfigPanel.OpenAIModelsRouted | src/components/AIConfigPanel.tsx:26-77 | The three OpenAI catalogue models are routed to OpenAI. |
| AIConfigPanel.AnthropicModelsRouted | src/components/AIConfigPanel.tsx:26-77 | The three Anthropic catalogue models are routed to Anthropic. |
| AIConfigPanel.SlashRoutesToOpenRouter | src/services/aiService.ts:112-119 | An id with a slash that starts with neither 'g' nor 'c' is routed to OpenRouter. |
| AIConfigPanel.CohereModelsRouted | src/components/AIConfigPanel.tsx:26-77 | The two Cohere models are routed to Cohere. |
| AIConfigPanel.GroqModelsRouted | src/components/AIConfigPanel.tsx:26-77 | The two Groq models are routed to Groq. |
| AIConfigPanel.CatalogueRoutedAsListed | src/components/AIConfigPanel.tsx:26-77 | Every catalogue model is routed to the provider it is listed under. |
| AIConfigPanel.CatalogueOpenRouterRouted | src/components/AIConfigPanel.tsx:50-54 | Each of the five OpenRouter catalogue models is routed to OpenRouter. |
| AIConfigPanel.CensorshipColor | src/components/AIConfigPanel.tsx:79-87 | The four levels map to red, yellow, green and emerald; the color is gray iff the level is none of them. |
| AIConfigPanel.CatalogueLevelsConsistent | src/components/AIConfigPanel.tsx:26-87 | No catalogue model shows gray. A model is flagged uncensored iff its level is "baixa" or "muito baixa". |
| AIConfigPanel.SetKey | src/components/AIConfigPanel.tsx:225-228 | Storing a key sets that provider's slot and leaves the other slots and settings unchanged. |
| AIConfigPanel.ConfiguredMeansServiceHasKey | src/components/AIConfigPanel.tsx:103-105 | The panel shows a provider as configured iff the service finds its key. |
| AIConfigPanel.MaskApiKey | src/components/AIConfigPanel.tsx:107-111 | An absent or empty key shows as "". With keys shown it is the full key. Otherwise it is the first (up to) 8 characters followed by "...". |
| AIConfigPanel.Open | src/components/AIConfigPanel.tsx:23-24 | The panel opens on the current config with keys hidden. |
| AIConfigPanel.SelectModel | src/components/AIConfigPanel.tsx:166 | Choosing a model changes only the selected model. |
| AIConfigPanel.SetTemperature | src/components/AIConfigPanel.tsx:260-271 | The temperature slider gives a value in [0, 1] and changes nothing else. |
| AIConfigPanel.SetMaxTokens | src/components/AIConfigPanel.tsx:282-293 | The token slider gives a multiple of 100 in [100, 4000] and changes nothing else. |
| AIConfigPanel.Save | src/components/AIConfigPanel.tsx:97-101 | Saving hands over the edited config unchanged. |
| AIConfigPanel.SaveKeepsUnedited | src/components/AIConfigPanel.tsx:23-101 | Opening and saving returns the config. Opening, choosing a model and saving changes only the model. |
| AIConfigPanel.KeyTypedAsWritten | src/components/AIConfigPanel.tsx:223-230 | As written, a keystroke stores the displayed, possibly masked, key plus the typed character. |
| AIConfigPanel.TypeKeyAsWritten | src/components/AIConfigPanel.tsx:223-230 | Typing a text, as written, leaves the show-keys switch as it was. |
| AIConfigPanel.MaskedKeyKeepsDot | src/components/AIConfigPanel.tsx:107-111 | With keys hidden, a stored key whose second character is '.' keeps it through further typing. |
| AIConfigPanel.MaskedTypingCorruptsKey | src/components/AIConfigPanel.tsx:223-230 | With keys hidden, typing a key of two or more characters into an empty slot stores a key whose second character is '.'. So a key like "sk" is stored as "s...k". |
| AIConfigPanel.KeyTyped | src/components/AIConfigPanel.tsx:223-230 | A keystroke appends the typed character to the stored key, whatever is displayed, and changes nothing else. |
| AIConfigPanel.TypingEntersKey | src/components/AIConfigPanel.tsx:223-230 | Typing a text appends exactly that text to the stored key and leaves the other slots unchanged. |
| ChatInterface.EnabledButtonCanSend | src/components/ChatInterface.tsx:212 | The send button is enabled iff the send guard passes and the character is not typing. |
| ChatInterface.OnlyPlainEnterSends | src/components/ChatInterface.tsx:60-65 | Shift+Enter and every key other than Enter never send; Enter alone sends. |
| ChatInterface.HandleKeyPress | src/components/ChatInterface.tsx:60-65 | A plain Enter is a send as `handleSend` performs it; any other key, or Enter with Shift, calls nothing and changes nothing. |
| ChatInterface.HandleSend | src/components/ChatInterface.tsx:43-58 | A blank text or a running send calls nothing and changes nothing. Otherwise the trimmed text is handed over and the box is cleared and marked as sending. A rejection puts the trimmed text back. Sending ends either way. |
| ChatInterface.PendingRefusesSend | src/components/ChatInterface.tsx:44 | A second send while one is pending is refused. |
| ChatInterface.RetryAfterRejectSendsSameText | src/components/ChatInterface.tsx:43-58 | After a rejected send, sending again hands over the same text. |
| ChatInterface.StyleGradient | src/components/ChatInterface.tsx:74-84 | Every style has a gradient from the map. The tech gradient is used exactly for friendly and playful characters. |
| ChatInterface.OwnerSettlesAsWritten | src/pages/Index.tsx:218-223 | As written, the page's send handler catches every failure, so its promise always resolves. |
| ChatInterface.FailedSendLosesTextAsWritten | src/components/ChatInterface.tsx:52-54 | As written, a failed reply persists nothing and leaves the box empty: the typed text is lost. |
| ChatInterface.OwnerSettles | src/pages/Index.tsx:218-223 | Corrected: the send handler's promise rejects iff the send failed. |
| ChatInterface.FailedSendRestoresText | src/components/ChatInterface.tsx:52-54 | With the corrected handler, a failed reply puts the trimmed text back and a successful one clears it. |
| CharacterTemplates.AllTemplates | src/components/CharacterTemplates.tsx:131 | The gallery is the built-in templates followed by the custom ones. |
| CharacterTemplates.FilteredTemplates | src/components/CharacterTemplates.tsx:147-155 | The result is an order-preserving subsequence of the gallery. It holds exactly the templates whose name, description or a tag contains the lower-cased search and whose category matches (or all). |
| CharacterTemplates.NoFilterShowsAll | src/components/CharacterTemplates.tsx:147-155 | An empty search over all categories shows the whole gallery in order. |
| CharacterTemplates.CategoryNarrowsAll | src/components/CharacterTemplates.tsx:152 | Choosing a category shows exactly the "all" view's templates of that category. |
| CharacterTemplates.SearchIgnoresCase | src/components/CharacterTemplates.tsx:148-150 | A search text and its lower-cased form find the same templates. |

## Left out

- The network transport (`fetch`, headers, endpoint URLs, `response.json()`) is an oracle from the shaped request to a reply. Timeouts and concurrency are not modelled.
- JSON and base64 encoding (`JSON.stringify`/`parse`, `btoa`/`atob`, section 4 of RFC 4648) are oracles. `btoa` throws on characters outside Latin-1, and the model does not represent that failure of share-code generation.
- Browser storage, file reading, downloads, the clipboard, `window.confirm`, toasts and console output are not modelled. Deletion in the main page is modelled as already confirmed.
- React effects, JSX rendering, icons and colours other than those named above, and `getCensorshipIcon` are left out.
- The async overlap of two sends and last-write-wins between them are left out. A send is one sequential step.
- Clocks and identifier generation are parameters. The "recent" conversation filter subtracts 30 calendar days with `setDate`; the model uses 30 × 24 hours.
- Locale behaviour is abstracted: `toLowerCase` is ASCII-only, `localeCompare` is a caller-given rank, and `toLocaleDateString` is an opaque string. UTF-16 code-unit sort order of `sort()` without a comparator (the available tags) is modelled as the lexicographic order on characters.
- The default scenarios, the seed characters of the main page and the built-in templates (CharacterTemplates.tsx:12-119) are data, not logic. The built-in templates are a parameter.
- Clearing the advanced-search filters, choosing a template, and the conversation history's delete, favourite and export handlers only call the owner's callbacks; they are not modelled.
- The user-settings form, the theme hook and the theme toggle are not part of this model. Their types are modelled as data only.
- `getProgressColor` is modelled although nothing renders it; its division by a zero maximum is modelled as JavaScript's infinity/NaN comparison.
- RelationshipManager.UpdateAll: the update effect re-runs on every change of messages or characters; one run is modelled, not the repetition.
- RelationshipManager: the level labels are modelled with the intended accents; the source text of RelationshipManager.tsx stores them with mis-encoded characters.
- ImportExport.ImportCharacter: an imported style outside the six tags is stored verbatim by the source; the model's style type cannot hold it, so the raw record holds a style or nothing.
- ImportExport.ImportCharacter: fields of another JSON type than declared are stored as-is by the source (`char.age || 25`, `char.interests || []`, `char.maxTokens || 1000` keep a string age, a string interests, a fractional maxTokens); the raw record holds only well-typed fields.
- ImportExport.ProcessImport: a `null` element of the characters array makes the source throw; the model's records cannot be null.
- ScenarioManager, AdvancedSearch, ConversationHistory, StatsPanel, RelationshipManager, CharacterImportExport and CharacterTemplates are not reached from the main page, which renders only CharacterCard, CharacterCreator, ChatInterface and AIConfigPanel (Index.tsx:4-7). Each is modelled on its own, with its props as parameters.
- AIConfigPanel.CensorshipColor: `colors[level] || "text-gray-500"` looks the level up in a plain object, so keys such as "toString", "constructor" or "valueOf" return inherited `Object.prototype` members instead of gray (AIConfigPanel.tsx:79-86). The model maps every level outside the four to gray. Only catalogue levels are passed (AIConfigPanel.tsx:180).
- StatsPanel.ComputeStats: the seven-day window counts back seven calendar days with `setDate` (StatsPanel.tsx:63-64); the model uses 7 × 24 hours, which differs across a daylight-saving change.
- StatsPanel.ComputeStats: `content.length` counts UTF-16 code units (StatsPanel.tsx:50), while the model counts characters, so `avgMessageLength` differs for text outside the Basic Multilingual Plane.
- ConversationHistory.FilterConversations and AdvancedSearch.FilterConversations: `.sort` sorts in place (ConversationHistory.tsx:70, AdvancedSearch.tsx:177), so when no earlier stage copied the array it reorders the `conversations` prop itself. The model returns a new sequence and leaves the input untouched.
- Scores and the temperature are JavaScript doubles; the model uses exact reals, so products such as `interactionBoost * 0.8` and `* 0.5` (RelationshipManager.tsx:81-86) carry no rounding.
- AIConfigPanel.SetTemperature and AIConfigPanel.SetMaxTokens: the range inputs bound the value through the DOM, so the slider position is a parameter within the input's range.
- ConversationHistory.FormatDate and CharacterCard.FormatLastChat state the "just now" and date cases directly; the hour and day labels are stated by TimeFormat.FormatElapsed, which both use.

## Findings

| source | as written | input that shows it | evidently intended | confidence | as-written member | corrected member |
|---|---|---|---|---|---|---|
| src/components/AIConfigPanel.tsx:223-230 | The key field displays `maskApiKey(key)` and stores the field's new value on every keystroke, so with keys hidden the stored key becomes the masked text plus the typed character. | Keys hidden, empty OpenAI slot, type "sk": the stored key is "s...k". | The stored key is what was typed; the mask is display only. | high (not executed) | AIConfigPanel.MaskedTypingCorruptsKey | AIConfigPanel.TypingEntersKey |
| src/components/ChatInterface.tsx:52-54 | The chat box restores the text only when `onSendMessage` rejects, but the main page's handler (src/pages/Index.tsx:218-223) catches every failure, so it never rejects. | Any send with no key for the selected provider: the reply fails, nothing is persisted, and the box stays empty. | A failed send puts the typed text back in the box. | medium (not executed) | ChatInterface.FailedSendLosesTextAsWritten | ChatInterface.FailedSendRestoresText |
