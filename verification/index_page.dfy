/** The main page's state transitions (`src/pages/Index.tsx`): the character
    list and the persisted chat sessions, with search, create, edit, delete,
    opening a chat and sending a message.

    Identifiers and timestamps that the page draws from `uuidv4()` and
    `new Date()` are parameters; the provider exchange is the oracle of
    `AIService.GenerateResponse`. */
module IndexPage {
  import opened Wrappers
  import opened Text
  import opened Seqs
  import opened Types
  import AIService

  /** What the page persists. */
  datatype AppState = AppState(characters: seq<Character>, sessions: seq<ChatSession>)

  /** The configuration used before the user saves one. */
  const DefaultConfig: AIConfig :=
    AIConfig(None, None, None, None, None, "openrouter/auto", 0.8, 1000)

  // ---------------------------------------------------------------------------
  // Search
  // ---------------------------------------------------------------------------

  /** Case-insensitive substring search on the name or the personality. */
  predicate MatchesQuery(c: Character, query: string) {
    Contains(Lower(c.name), Lower(query)) || Contains(Lower(c.personality), Lower(query))
  }

  /** `filteredCharacters`: the matching characters, in list order. */
  function FilterCharacters(chars: seq<Character>, query: string): (r: seq<Character>)
    ensures IsSubsequence(r, chars)
    ensures forall i :: 0 <= i < |r| ==> MatchesQuery(r[i], query)
    ensures forall i :: 0 <= i < |chars| && MatchesQuery(chars[i], query) ==> chars[i] in r
  {
    Filter(chars, c => MatchesQuery(c, query))
  }

  /** An empty query keeps every character. */
  lemma EmptyQueryKeepsAll(chars: seq<Character>)
    ensures FilterCharacters(chars, "") == chars
  {
    forall i | 0 <= i < |chars|
      ensures MatchesQuery(chars[i], "")
    {
      ContainsEmpty(Lower(chars[i].name));
    }
    FilterKeepsAll(chars, c => MatchesQuery(c, ""));
  }

  // ---------------------------------------------------------------------------
  // Create, edit, delete
  // ---------------------------------------------------------------------------

  /** `handleCreateCharacter`: one new character at the end, with a fresh id,
      the creation time and no messages; nothing else changes. */
  function CreateCharacter(st: AppState, d: CharacterDraft, id: string, now: int): (r: AppState)
    ensures |r.characters| == |st.characters| + 1
    ensures r.characters[..|st.characters|] == st.characters
    ensures var c := r.characters[|st.characters|];
            c.id == id && c.createdAt == now && c.totalMessages == 0
            && BodyOf(c) == d.body && c.lastChatAt == d.lastChatAt
    ensures r.sessions == st.sessions
  {
    var c := Instantiate(d.body, id, now).(lastChatAt := d.lastChatAt);
    st.(characters := st.characters + [c])
  }

  /** `handleEditCharacter`: without a character being edited nothing happens;
      otherwise every character with its id takes the drafted fields and keeps
      its id, creation date and message count, and the others are untouched. */
  function EditCharacter(st: AppState, editing: Option<Character>, d: CharacterDraft): (r: AppState)
    ensures editing.None? ==> r == st
    ensures r.sessions == st.sessions
    ensures |r.characters| == |st.characters|
    ensures editing.Some? ==>
              forall i :: 0 <= i < |st.characters| ==>
                if st.characters[i].id == editing.value.id
                then r.characters[i] == ApplyDraft(editing.value, d)
                     && r.characters[i].id == st.characters[i].id
                else r.characters[i] == st.characters[i]
  {
    match editing
    case None => st
    case Some(e) =>
      var updated := ApplyDraft(e, d);
      st.(characters := UpdateWhere(st.characters, (c: Character) => c.id == e.id, _ => updated))
  }

  /** `handleDeleteCharacter` (once confirmed): the character and all of its
      sessions go; every other character and session stays, in order. */
  function DeleteCharacter(st: AppState, id: string): (r: AppState)
    ensures forall i :: 0 <= i < |r.characters| ==> r.characters[i].id != id
    ensures forall i :: 0 <= i < |r.sessions| ==> r.sessions[i].characterId != id
    ensures IsSubsequence(r.characters, st.characters) && IsSubsequence(r.sessions, st.sessions)
    ensures forall i :: 0 <= i < |st.characters| && st.characters[i].id != id ==>
              st.characters[i] in r.characters
    ensures forall i :: 0 <= i < |st.sessions| && st.sessions[i].characterId != id ==>
              st.sessions[i] in r.sessions
  {
    AppState(Filter(st.characters, (c: Character) => c.id != id),
             Filter(st.sessions, (s: ChatSession) => s.characterId != id))
  }

  // ---------------------------------------------------------------------------
  // Chat
  // ---------------------------------------------------------------------------

  /** `handleChatStart`: the transcript of the first session of the character,
      or an empty one. */
  function OpenChat(sessions: seq<ChatSession>, id: string): (transcript: seq<Message>)
    ensures (forall i :: 0 <= i < |sessions| ==> sessions[i].characterId != id) ==> transcript == []
    ensures (exists i :: 0 <= i < |sessions| && sessions[i].characterId == id) ==>
              exists i :: 0 <= i < |sessions| && sessions[i].characterId == id
                          && sessions[i].messages == transcript
                          && forall j :: 0 <= j < i ==> sessions[j].characterId != id
  {
    match Find(sessions, (s: ChatSession) => s.characterId == id)
    case Some(s) => s.messages
    case None => []
  }

  /** Replace-on-write: every session of `s.characterId` is dropped and `s` is
      appended, so exactly one remains and the others keep their order. */
  function UpsertSession(sessions: seq<ChatSession>, s: ChatSession): (r: seq<ChatSession>)
    ensures |r| > 0 && r[|r| - 1] == s
    ensures forall i :: 0 <= i < |r| - 1 ==> r[i].characterId != s.characterId
    ensures IsSubsequence(r[..|r| - 1], sessions)
    ensures forall i :: 0 <= i < |sessions| && sessions[i].characterId != s.characterId ==>
              sessions[i] in r
  {
    var others := Filter(sessions, (x: ChatSession) => x.characterId != s.characterId);
    assert (others + [s])[..|others|] == others;
    others + [s]
  }

  /** The per-character statistics after a chat: the characters with `id` get
      the chat date and the transcript length (set, not incremented). */
  function RecordChat(chars: seq<Character>, id: string, at: int, count: int): (r: seq<Character>)
    ensures |r| == |chars|
    ensures forall i :: 0 <= i < |chars| ==>
              if chars[i].id == id
              then r[i] == chars[i].(lastChatAt := Some(at), totalMessages := count)
              else r[i] == chars[i]
  {
    UpdateWhere(chars, (c: Character) => c.id == id,
                (c: Character) => c.(lastChatAt := Some(at), totalMessages := count))
  }

  /** The outcome of one send: the persisted state, the on-screen transcript
      and the error shown to the user, if any. */
  datatype SendOutcome = SendOutcome(state: AppState, transcript: seq<Message>, failure: Option<string>)

  /** A response fails when its error is present and non-empty (`if
      (response.error)` tests truthiness). */
  predicate Failed(r: AIService.AIResponse) {
    r.error.Some? && r.error.value != ""
  }

  /** The transcript gained exactly the user's message and then the reply. */
  predicate ExtendsByTurn(t: seq<Message>, current: seq<Message>, content: string, replyContent: string) {
    |t| == |current| + 2 && t[..|current|] == current
    && t[|current|].isUser && t[|current|].content == content
    && !t[|current| + 1].isUser && t[|current| + 1].content == replyContent
  }

  /** `ss` holds exactly one session of `id`, last, with `transcript`; the
      sessions of other characters are those of `prior`, in their order. */
  predicate SoleSessionFor(ss: seq<ChatSession>, prior: seq<ChatSession>, id: string, transcript: seq<Message>) {
    |ss| > 0 && ss[|ss| - 1].characterId == id && ss[|ss| - 1].messages == transcript
    && (forall i :: 0 <= i < |ss| - 1 ==> ss[i].characterId != id)
    && IsSubsequence(ss[..|ss| - 1], prior)
    && (forall i :: 0 <= i < |prior| && prior[i].characterId != id ==> prior[i] in ss)
  }

  /** Only the characters with `id` changed, and only in their chat date and
      message count. */
  predicate StatsRecorded(now: seq<Character>, prior: seq<Character>, id: string, at: int, count: int) {
    |now| == |prior|
    && forall i :: 0 <= i < |prior| ==>
         if prior[i].id == id
         then now[i].totalMessages == count && now[i].lastChatAt == Some(at)
              && now[i].(lastChatAt := prior[i].lastChatAt, totalMessages := prior[i].totalMessages) == prior[i]
         else now[i] == prior[i]
  }

  /** `handleSendMessage`: with no selected character nothing happens.
      Otherwise the user's message is shown at once; the provider is asked
      with the transcript from before that message; on failure only the
      user's message stays on screen and nothing is persisted; on success the
      transcript gains exactly the user's and the reply's messages, becomes
      the character's only session, and sets the character's statistics. */
  function SendMessage(config: AIConfig, st: AppState, selected: Option<Character>,
                       current: seq<Message>, content: string,
                       userId: string, replyId: string, sentAt: int, repliedAt: int,
                       send: AIService.Request -> AIService.Reply): (out: SendOutcome)
    ensures selected.None? ==> out == SendOutcome(st, current, None)
    ensures selected.Some? && Failed(AIService.GenerateResponse(config, selected.value, current, content, send)) ==>
              out.state == st && out.failure.Some? && out.failure.value != ""
              && |out.transcript| == |current| + 1 && out.transcript[..|current|] == current
              && out.transcript[|current|].isUser && out.transcript[|current|].content == content
    ensures selected.Some? && !Failed(AIService.GenerateResponse(config, selected.value, current, content, send)) ==>
              var sel := selected.value;
              out.failure.None?
              && ExtendsByTurn(out.transcript, current, content,
                               AIService.GenerateResponse(config, sel, current, content, send).content)
              && SoleSessionFor(out.state.sessions, st.sessions, sel.id, out.transcript)
              && StatsRecorded(out.state.characters, st.characters, sel.id, repliedAt, |out.transcript|)
  {
    match selected
    case None => SendOutcome(st, current, None)
    case Some(sel) =>
      var user := Message(userId, sel.id, content, true, sentAt, None);
      var resp := AIService.GenerateResponse(config, sel, current, content, send);
      if Failed(resp) then SendOutcome(st, current + [user], resp.error)
      else
        var reply := Message(replyId, sel.id, resp.content, false, repliedAt, None);
        var transcript := current + [user, reply];
        var session := ChatSession(sel.id + "-session", sel.id, transcript, repliedAt, repliedAt);
        SendOutcome(AppState(RecordChat(st.characters, sel.id, repliedAt, |transcript|),
                             UpsertSession(st.sessions, session)),
                    transcript, None)
  }

  /** After a successful send, reopening the character's chat shows the new
      transcript: the upsert left exactly one session for it. */
  lemma {:induction false} SendThenOpenShowsTranscript(config: AIConfig, st: AppState, sel: Character,
                                                       current: seq<Message>, content: string,
                                                       userId: string, replyId: string,
                                                       sentAt: int, repliedAt: int,
                                                       send: AIService.Request -> AIService.Reply)
    requires !Failed(AIService.GenerateResponse(config, sel, current, content, send))
    ensures var out := SendMessage(config, st, Some(sel), current, content, userId, replyId,
                                   sentAt, repliedAt, send);
            OpenChat(out.state.sessions, sel.id) == out.transcript
            && |out.transcript| == |current| + 2
  {
    var out := SendMessage(config, st, Some(sel), current, content, userId, replyId, sentAt, repliedAt, send);
    OpenAfterUpsert(st.sessions, ChatSession(sel.id + "-session", sel.id, out.transcript, repliedAt, repliedAt));
  }

  /** The session just upserted is the one a later lookup finds. */
  lemma OpenAfterUpsert(sessions: seq<ChatSession>, s: ChatSession)
    ensures OpenChat(UpsertSession(sessions, s), s.characterId) == s.messages
  {
    var r := UpsertSession(sessions, s);
    var found := Find(r, (x: ChatSession) => x.characterId == s.characterId);
    assert found == Some(r[|r| - 1]);
  }

  /** Without the selected provider's key every send fails with a message
      naming the provider, and the state is kept. */
  lemma {:induction false} SendWithoutKeyFails(config: AIConfig, st: AppState, sel: Character,
                                               current: seq<Message>, content: string,
                                               userId: string, replyId: string,
                                               sentAt: int, repliedAt: int,
                                               send: AIService.Request -> AIService.Reply)
    requires !AIService.HasKey(config, AIService.ProviderOf(config.selectedModel))
    ensures var out := SendMessage(config, st, Some(sel), current, content, userId, replyId,
                                   sentAt, repliedAt, send);
            out.state == st && out.failure.Some?
            && Contains(out.failure.value, AIService.ProviderName(AIService.ProviderOf(config.selectedModel)))
  {
  }

  /** Deleting a character after chatting with it leaves no session behind. */
  lemma DeleteRemovesChat(st: AppState, id: string)
    ensures OpenChat(DeleteCharacter(st, id).sessions, id) == []
  {
  }
}
