/** The conversation service (`src/services/aiService.ts`): it builds the
    context of a turn, picks a provider from the selected model id, shapes the
    provider's request, and folds every outcome into one `{content, error?}`
    answer.

    The HTTP exchange is an oracle `send: Request -> Reply`: the model decides
    which request is issued (or that none is) and what becomes of the reply;
    transport, headers, endpoints and JSON decoding are outside it. */
module AIService {
  import opened Wrappers
  import opened Text
  import opened Seqs
  import opened Types

  // ---------------------------------------------------------------------------
  // Providers
  // ---------------------------------------------------------------------------

  datatype Provider = OpenAI | Anthropic | OpenRouter | Cohere | Groq

  /** The provider name used in error messages. */
  function ProviderName(p: Provider): string {
    match p
    case OpenAI => "OpenAI"
    case Anthropic => "Anthropic"
    case OpenRouter => "OpenRouter"
    case Cohere => "Cohere"
    case Groq => "Groq"
  }

  /** `getProviderFromModel`: a total classification whose rules are tried in
      order, the first that applies deciding. The `openrouter/` prefix rule is
      subsumed by the "contains a slash" rule, so routing to OpenRouter is
      characterised by the slash alone. */
  function ProviderOf(model: string): (p: Provider)
    ensures IsPrefix("gpt-", model) ==> p == OpenAI
    ensures p == Anthropic <==> !IsPrefix("gpt-", model) && IsPrefix("claude-", model)
    ensures p == OpenRouter <==>
      !IsPrefix("gpt-", model) && !IsPrefix("claude-", model) && Contains(model, "/")
    ensures p == Cohere <==>
      !IsPrefix("gpt-", model) && !IsPrefix("claude-", model) && !Contains(model, "/")
      && IsPrefix("command-", model)
    ensures p == Groq <==>
      !IsPrefix("gpt-", model) && !IsPrefix("claude-", model) && !Contains(model, "/")
      && !IsPrefix("command-", model) && (Contains(model, "llama") || Contains(model, "mixtral"))
  {
    if IsPrefix("gpt-", model) then OpenAI
    else if IsPrefix("claude-", model) then Anthropic
    else if IsPrefix("openrouter/", model) || Contains(model, "/") then
      (if IsPrefix("openrouter/", model) then
         assert model[10..11] == "/";
         ContainsAt(model, "/", 10);
         OpenRouter
       else OpenRouter)
    else if IsPrefix("command-", model) then Cohere
    else if Contains(model, "llama") || Contains(model, "mixtral") then Groq
    else OpenAI
  }

  /** A provider's key counts as configured when it is present and non-empty
      (an empty string is falsy). */
  predicate HasKey(config: AIConfig, p: Provider) {
    var key := match p
      case OpenAI => config.openaiApiKey
      case Anthropic => config.anthropicApiKey
      case OpenRouter => config.openRouterApiKey
      case Cohere => config.cohereApiKey
      case Groq => config.groqApiKey;
    key.Some? && key.value != ""
  }

  // ---------------------------------------------------------------------------
  // Context
  // ---------------------------------------------------------------------------

  datatype Role = SystemRole | UserRole | AssistantRole

  /** One `{role, content}` entry of the context. */
  datatype Entry = Entry(role: Role, content: string)

  const MemoryPrefix: string := "Contexto importante para lembrar: "

  /** Number of history messages carried into a context. */
  const WindowSize: nat := 20

  /** `${character.age}`: the number, or the text `undefined` when absent. */
  function AgeText(age: Option<int>): string {
    match age
    case Some(a) => IntToString(a)
    case None => "undefined"
  }

  const Guidelines: string :=
    "DIRETRIZES IMPORTANTES:\n"
    + "- Responda SEMPRE em português brasileiro natural e fluente\n"
    + "- Seja autêntico e humano, demonstre emoções reais\n"
    + "- Mantenha consistência com sua personalidade\n"
    + "- Lembre-se do contexto das conversas anteriores\n"
    + "- Adapte seu tom ao estilo de conversa configurado\n"
    + "- Seja envolvente e interessante\n"
    + "- Responda como uma pessoa real, não como IA\n"
    + "- Use expressões brasileiras quando apropriado\n"
    + "- Seja carinhoso nos relacionamentos"

  // The fixed pieces of the default prompt, between the character's fields.
  const DefaultIntro: string := "Você é "
  const DefaultAgeLead: string := ", uma pessoa real de "
  const DefaultPersonalityHeading: string := " anos.\n\nPERSONALIDADE:\n"
  const DefaultBackgroundHeading: string := "\n\nCONTEXTO E HISTÓRIA:\n"
  const DefaultInterestsHeading: string := "\n\nINTERESSES: "
  const DefaultStyleHeading: string := "\n\nESTILO DE CONVERSA: "
  const DefaultInstructionsHeading: string := "\n\nINSTRUÇÕES ESPECIAIS:\n"
  const DefaultGuidelinesBreak: string := "\n\n"

  function DefaultPromptParts(c: Character): seq<string> {
    [DefaultIntro, c.name, DefaultAgeLead, AgeText(c.age), DefaultPersonalityHeading,
     c.personality, DefaultBackgroundHeading, c.background, DefaultInterestsHeading,
     Join(c.interests, ", "), DefaultStyleHeading, StyleTag(c.conversationStyle),
     DefaultInstructionsHeading, c.customInstructions, DefaultGuidelinesBreak, Guidelines]
  }

  /** `generateDefaultSystemPrompt`: a non-empty prompt that embeds the name,
      age, personality, background, every interest (and their ", "-joined
      list), the style tag and the custom instructions. */
  function DefaultSystemPrompt(c: Character): (r: string)
    ensures IsPrefix("Você é ", r)
    ensures Contains(r, c.name) && Contains(r, AgeText(c.age))
    ensures Contains(r, c.personality) && Contains(r, c.background)
    ensures Contains(r, Join(c.interests, ", "))
    ensures forall i :: 0 <= i < |c.interests| ==> Contains(r, c.interests[i])
    ensures Contains(r, StyleTag(c.conversationStyle)) && Contains(r, c.customInstructions)
  {
    var parts := DefaultPromptParts(c);
    var r := Concat(parts);
    ConcatStartsWith(parts);
    ConcatContainsEvery(parts);
    assert Contains(r, parts[1]) && Contains(r, parts[3]) && Contains(r, parts[5]) && Contains(r, parts[7]);
    assert Contains(r, parts[9]) && Contains(r, parts[11]) && Contains(r, parts[13]);
    JoinedPartsContained(r, c.interests, ", ");
    r
  }

  /** `character.systemPrompt || generateDefaultSystemPrompt(character)`: the
      stored prompt unless it is empty; never empty itself. */
  function SystemPromptFor(c: Character): (r: string)
    ensures r != ""
    ensures c.systemPrompt != "" ==> r == c.systemPrompt
    ensures c.systemPrompt == "" ==> Contains(r, c.name) && Contains(r, c.personality)
  {
    if c.systemPrompt != "" then c.systemPrompt else DefaultSystemPrompt(c)
  }

  /** The memory note is included when the memory text is not blank. */
  predicate HasMemory(c: Character) {
    !IsBlank(c.memoryContext)
  }

  function MemoryEntries(c: Character): (es: seq<Entry>)
    ensures |es| == (if HasMemory(c) then 1 else 0)
    ensures forall i :: 0 <= i < |es| ==> es[i].role == SystemRole
  {
    if HasMemory(c) then [Entry(SystemRole, MemoryPrefix + c.memoryContext)] else []
  }

  /** A history message as a context entry: `user` exactly for the human's
      turns, `assistant` for the others, never `system`. */
  function EntryOf(m: Message): (e: Entry)
    ensures e.role != SystemRole
    ensures e.role == UserRole <==> m.isUser
    ensures e.content == m.content
  {
    Entry(if m.isUser then UserRole else AssistantRole, m.content)
  }

  /** `messages.slice(-20)`: the history window. */
  function Window(history: seq<Message>): (w: seq<Message>)
    ensures |w| == if |history| < WindowSize then |history| else WindowSize
    ensures w == history[|history| - |w|..]
  {
    LastN(history, WindowSize)
  }

  function WindowEntries(history: seq<Message>): (es: seq<Entry>)
    ensures |es| == |Window(history)|
    ensures forall i :: 0 <= i < |es| ==> es[i] == EntryOf(Window(history)[i])
    ensures forall i :: 0 <= i < |es| ==> es[i].role != SystemRole
  {
    var w := Window(history);
    seq(|w|, i requires 0 <= i < |w| => EntryOf(w[i]))
  }

  /** `buildConversationContext`: the system prompt, then the memory note when
      there is one, then the last (at most 20) history messages in their
      order, then the new user turn. */
  function BuildContext(c: Character, history: seq<Message>, userMessage: string): (ctx: seq<Entry>)
    ensures |ctx| == 2 + (if HasMemory(c) then 1 else 0)
                       + (if |history| < WindowSize then |history| else WindowSize)
    ensures ctx[0] == Entry(SystemRole, SystemPromptFor(c))
    ensures ctx[1].role == SystemRole <==> HasMemory(c)
    ensures HasMemory(c) ==> ctx[1] == Entry(SystemRole, MemoryPrefix + c.memoryContext)
    ensures ctx[|ctx| - 1 - |Window(history)|..|ctx| - 1] == WindowEntries(history)
    ensures ctx[|ctx| - 1] == Entry(UserRole, userMessage)
  {
    var mem := MemoryEntries(c);
    var win := WindowEntries(history);
    var last := Entry(UserRole, userMessage);
    ContextLayout(Entry(SystemRole, SystemPromptFor(c)), mem, win, last);
    [Entry(SystemRole, SystemPromptFor(c))] + mem + win + [last]
  }

  /** Where the parts of a context sit: the first entry, then the memory and
      window entries, then the last entry. */
  lemma ContextLayout(first: Entry, mem: seq<Entry>, win: seq<Entry>, last: Entry)
    requires |mem| <= 1 && last.role != SystemRole
    requires forall i :: 0 <= i < |win| ==> win[i].role != SystemRole
    ensures var ctx := [first] + mem + win + [last];
            |ctx| == 2 + |mem| + |win| && ctx[0] == first && ctx[|ctx| - 1] == last
            && ctx[|ctx| - 1 - |win|..|ctx| - 1] == win
            && (|mem| == 1 ==> ctx[1] == mem[0])
            && (ctx[1].role == SystemRole <==> |mem| == 1 && mem[0].role == SystemRole)
  {
    var ctx := [first] + mem + win + [last];
    assert ctx == [first] + (mem + win + [last]);
    assert ctx[|ctx| - 1 - |win|..|ctx| - 1] == win;
    if |mem| == 0 {
      assert ctx[1] == (win + [last])[0];
      assert |win| > 0 ==> ctx[1] == win[0];
    }
  }

  // ---------------------------------------------------------------------------
  // Requests
  // ---------------------------------------------------------------------------

  datatype CohereRole = CohereUser | Chatbot

  datatype CohereTurn = CohereTurn(role: CohereRole, message: string)

  /** The request body each provider is sent. OpenAI, OpenRouter and Groq share
      the chat-completions shape; `provider` tells which endpoint it goes to. */
  datatype Request =
    | ChatCompletion(provider: Provider, model: string, messages: seq<Entry>,
                     temperature: real, maxTokens: int)
    | AnthropicMessages(model: string, system: string, messages: seq<Entry>,
                        temperature: real, maxTokens: int)
    | CohereChat(model: string, message: string, preamble: string,
                 chatHistory: seq<CohereTurn>, temperature: real, maxTokens: int)

  predicate IsSystem(e: Entry) {
    e.role == SystemRole
  }

  predicate IsConversational(e: Entry) {
    e.role != SystemRole
  }

  /** `messages.filter(m => m.role !== 'system')` */
  function NonSystem(ctx: seq<Entry>): (r: seq<Entry>)
    ensures IsSubsequence(r, ctx)
    ensures forall i :: 0 <= i < |r| ==> r[i].role != SystemRole
  {
    Filter(ctx, IsConversational)
  }

  /** `messages.find(m => m.role === 'system')?.content || ''` */
  /** `i` is the first system entry of `ctx`. */
  predicate FirstSystemAt(ctx: seq<Entry>, i: int) {
    0 <= i < |ctx| && ctx[i].role == SystemRole && forall j :: 0 <= j < i ==> ctx[j].role != SystemRole
  }

  function FirstSystemContent(ctx: seq<Entry>): (s: string)
    ensures (forall i :: 0 <= i < |ctx| ==> ctx[i].role != SystemRole) ==> s == ""
    ensures forall i :: FirstSystemAt(ctx, i) ==> s == ctx[i].content
  {
    assert forall i :: FirstSystemAt(ctx, i) ==> Find(ctx, IsSystem) == Some(ctx[i]) by {
      forall i | FirstSystemAt(ctx, i) {
        FindIsFirst(ctx, IsSystem, i);
      }
    }
    match Find(ctx, IsSystem)
    case Some(e) => e.content
    case None => ""
  }

  function CohereTurnOf(e: Entry): (t: CohereTurn)
    ensures t.role == CohereUser <==> e.role == UserRole
    ensures t.message == e.content
  {
    CohereTurn(if e.role == UserRole then CohereUser else Chatbot, e.content)
  }

  /** `chat_history`: each entry as a Cohere turn, in order. */
  function CohereTurns(es: seq<Entry>): (ts: seq<CohereTurn>)
    ensures |ts| == |es|
    ensures forall i :: 0 <= i < |es| ==> ts[i] == CohereTurnOf(es[i])
  {
    seq(|es|, i requires 0 <= i < |es| => CohereTurnOf(es[i]))
  }

  /** The request issued to provider `p` for context `ctx`. The model id is the
      configured one and the sampling settings are the character's. */
  function RequestFor(p: Provider, selectedModel: string, ctx: seq<Entry>, c: Character): (req: Request)
    ensures req.model == selectedModel
    ensures req.temperature == c.temperature && req.maxTokens == c.maxTokens
    ensures req.ChatCompletion? <==> p in {OpenAI, OpenRouter, Groq}
    ensures req.ChatCompletion? ==> req.provider == p && req.messages == ctx
    ensures req.AnthropicMessages? <==> p == Anthropic
    ensures req.CohereChat? <==> p == Cohere
  {
    match p
    case Anthropic =>
      AnthropicMessages(selectedModel, FirstSystemContent(ctx), NonSystem(ctx), c.temperature, c.maxTokens)
    case Cohere =>
      var conv := NonSystem(ctx);
      var last := if |conv| > 0 then conv[|conv| - 1].content else "";
      var earlier := if |conv| > 0 then conv[..|conv| - 1] else [];
      CohereChat(selectedModel, last, FirstSystemContent(ctx), CohereTurns(earlier),
                 c.temperature, c.maxTokens)
    case _ =>
      ChatCompletion(p, selectedModel, ctx, c.temperature, c.maxTokens)
  }

  // ---------------------------------------------------------------------------
  // Replies and normalisation
  // ---------------------------------------------------------------------------

  /** What the provider's reply yields once decoded: the text at the provider's
      reply path (absent when the path is empty), or a decoding failure. */
  datatype Body = Extracted(text: Option<string>) | Unreadable(message: string)

  /** The outcome of one exchange: the request could not complete, or an HTTP
      status with its reason phrase and body. */
  datatype Reply =
    | NetworkFailure(message: string)
    | Response(status: int, statusText: string, body: Body)

  /** `response.ok` */
  predicate IsOk(status: int) {
    200 <= status <= 299
  }

  datatype AIResponse = AIResponse(content: string, error: Option<string>)

  function MissingKeyMessage(p: Provider): (m: string)
    ensures Contains(m, ProviderName(p))
  {
    var parts := ["Chave da API ", ProviderName(p), " não configurada"];
    ConcatContainsPart(parts, 1);
    Concat(parts)
  }

  function StatusMessage(p: Provider, status: int, statusText: string): (m: string)
    ensures Contains(m, ProviderName(p)) && Contains(m, IntToString(status))
    ensures Contains(m, statusText)
  {
    var parts := ["Erro ", ProviderName(p), ": ", IntToString(status), " ", statusText];
    ConcatContainsPart(parts, 1);
    ConcatContainsPart(parts, 3);
    ConcatContainsPart(parts, 5);
    Concat(parts)
  }

  /** The reply folded into the answer shape: a failed exchange, a non-2xx
      status and an undecodable body become an error with empty content; a
      2xx reply whose text is absent becomes empty content without error. */
  function Normalise(p: Provider, reply: Reply): (r: AIResponse)
    ensures r.error.Some? ==> r.content == ""
    ensures r.error.None? <==> reply.Response? && IsOk(reply.status) && reply.body.Extracted?
    ensures reply.Response? && !IsOk(reply.status) ==>
              r.error.Some? && Contains(r.error.value, ProviderName(p))
              && Contains(r.error.value, IntToString(reply.status))
    ensures reply.Response? && IsOk(reply.status) && reply.body == Extracted(None) ==>
              r == AIResponse("", None)
    ensures reply.Response? && IsOk(reply.status) && reply.body.Extracted? && reply.body.text.Some? ==>
              r == AIResponse(reply.body.text.value, None)
  {
    match reply
    case NetworkFailure(m) => AIResponse("", Some(m))
    case Response(status, statusText, body) =>
      if !IsOk(status) then AIResponse("", Some(StatusMessage(p, status, statusText)))
      else match body
        case Unreadable(m) => AIResponse("", Some(m))
        case Extracted(t) => AIResponse(t.GetOr(""), None)
  }

  /** The request one turn sends: shaped for the provider the configured
      model routes to, carrying the turn's context. */
  function TurnRequest(config: AIConfig, c: Character, history: seq<Message>, userMessage: string): Request {
    RequestFor(ProviderOf(config.selectedModel), config.selectedModel, BuildContext(c, history, userMessage), c)
  }

  /** `generateResponse`: route by the configured model, refuse without that
      provider's key, otherwise send the shaped request and normalise. With a
      key, a failed exchange reports its message, a non-2xx status an error
      naming the provider and the status, an unreadable body its message, and
      a 2xx reply its text, or "" without error when the text is absent. */
  function GenerateResponse(config: AIConfig, c: Character, history: seq<Message>,
                            userMessage: string, send: Request -> Reply): (r: AIResponse)
    ensures !HasKey(config, ProviderOf(config.selectedModel)) ==>
              r.content == "" && r.error == Some(MissingKeyMessage(ProviderOf(config.selectedModel)))
    ensures r.error.Some? ==> r.content == ""
    ensures r.error.None? ==> HasKey(config, ProviderOf(config.selectedModel))
    ensures HasKey(config, ProviderOf(config.selectedModel)) ==>
              var reply := send(TurnRequest(config, c, history, userMessage));
              reply.NetworkFailure? ==> r == AIResponse("", Some(reply.message))
    ensures HasKey(config, ProviderOf(config.selectedModel)) ==>
              var reply := send(TurnRequest(config, c, history, userMessage));
              reply.Response? && !IsOk(reply.status) ==>
                r.content == "" && r.error.Some?
                && Contains(r.error.value, ProviderName(ProviderOf(config.selectedModel)))
                && Contains(r.error.value, IntToString(reply.status))
    ensures HasKey(config, ProviderOf(config.selectedModel)) ==>
              var reply := send(TurnRequest(config, c, history, userMessage));
              reply.Response? && IsOk(reply.status) && reply.body.Unreadable? ==>
                r == AIResponse("", Some(reply.body.message))
    ensures HasKey(config, ProviderOf(config.selectedModel)) ==>
              var reply := send(TurnRequest(config, c, history, userMessage));
              reply.Response? && IsOk(reply.status) && reply.body.Extracted? ==>
                r.error.None? && (reply.body.text.Some? ==> r.content == reply.body.text.value)
                && (reply.body.text.None? ==> r.content == "")
  {
    var p := ProviderOf(config.selectedModel);
    if !HasKey(config, p) then AIResponse("", Some(MissingKeyMessage(p)))
    else Normalise(p, send(TurnRequest(config, c, history, userMessage)))
  }

  // ---------------------------------------------------------------------------
  // Properties
  // ---------------------------------------------------------------------------

  /** Without the selected provider's key no request is issued: the answer is
      the same whatever the network would have said, and names the provider. */
  lemma MissingKeyIssuesNoRequest(config: AIConfig, c: Character, history: seq<Message>,
                                  userMessage: string, send1: Request -> Reply, send2: Request -> Reply)
    requires !HasKey(config, ProviderOf(config.selectedModel))
    ensures GenerateResponse(config, c, history, userMessage, send1)
         == GenerateResponse(config, c, history, userMessage, send2)
    ensures var r := GenerateResponse(config, c, history, userMessage, send1);
            r.content == "" && r.error.Some?
            && Contains(r.error.value, ProviderName(ProviderOf(config.selectedModel)))
  {
  }

  /** With the key, exactly one request is issued: two networks that answer
      that request alike give the same answer. */
  lemma OnlyTheShapedRequestMatters(config: AIConfig, c: Character, history: seq<Message>,
                                    userMessage: string, send1: Request -> Reply, send2: Request -> Reply)
    requires HasKey(config, ProviderOf(config.selectedModel))
    requires var p := ProviderOf(config.selectedModel);
             var req := RequestFor(p, config.selectedModel, BuildContext(c, history, userMessage), c);
             send1(req) == send2(req)
    ensures GenerateResponse(config, c, history, userMessage, send1)
         == GenerateResponse(config, c, history, userMessage, send2)
  {
  }

  /** The character's own `aiModel` plays no part in a turn: routing and the
      request's model come from the configuration. */
  lemma CharacterModelIgnored(config: AIConfig, c: Character, model: string, history: seq<Message>,
                              userMessage: string, send: Request -> Reply)
    ensures GenerateResponse(config, c.(aiModel := model), history, userMessage, send)
         == GenerateResponse(config, c, history, userMessage, send)
  {
    var c' := c.(aiModel := model);
    assert DefaultPromptParts(c') == DefaultPromptParts(c);
    assert SystemPromptFor(c') == SystemPromptFor(c);
    assert MemoryEntries(c') == MemoryEntries(c);
    assert BuildContext(c', history, userMessage) == BuildContext(c, history, userMessage);
  }

  /** The configuration's temperature and token limit play no part either:
      the request carries the character's. */
  lemma ConfigSamplingIgnored(config: AIConfig, t: real, n: int, c: Character, history: seq<Message>,
                              userMessage: string, send: Request -> Reply)
    ensures GenerateResponse(config.(temperature := t, maxTokens := n), c, history, userMessage, send)
         == GenerateResponse(config, c, history, userMessage, send)
  {
  }

  /** Dropping the system entries of a context leaves the history window
      followed by the user turn. */
  lemma {:induction false} NonSystemOfContext(c: Character, history: seq<Message>, userMessage: string)
    ensures NonSystem(BuildContext(c, history, userMessage))
         == WindowEntries(history) + [Entry(UserRole, userMessage)]
  {
    var sys := [Entry(SystemRole, SystemPromptFor(c))];
    var mem := MemoryEntries(c);
    var win := WindowEntries(history);
    var usr := [Entry(UserRole, userMessage)];
    assert BuildContext(c, history, userMessage) == sys + mem + win + usr;
    FilterDropsAll(sys, IsConversational);
    FilterDropsAll(mem, IsConversational);
    FilterKeepsAll(win, IsConversational);
    FilterKeepsAll(usr, IsConversational);
    FilterConcat(sys, mem, IsConversational);
    assert Filter(sys + mem, IsConversational) == [];
    FilterConcat(sys + mem, win, IsConversational);
    assert Filter(sys + mem + win, IsConversational) == win;
    FilterConcat(sys + mem + win, usr, IsConversational);
  }

  /** Anthropic receives the system prompt as `system` and only the window
      and the user turn as messages: the memory note is dropped. */
  lemma {:induction false} AnthropicDropsMemory(config: AIConfig, c: Character, history: seq<Message>,
                                                userMessage: string)
    ensures RequestFor(Anthropic, config.selectedModel, BuildContext(c, history, userMessage), c)
         == AnthropicMessages(config.selectedModel, SystemPromptFor(c),
                              WindowEntries(history) + [Entry(UserRole, userMessage)],
                              c.temperature, c.maxTokens)
    ensures HasMemory(c) ==>
              forall i :: 0 <= i < |WindowEntries(history)| + 1 ==>
                (WindowEntries(history) + [Entry(UserRole, userMessage)])[i].role != SystemRole
  {
    var win := WindowEntries(history) + [Entry(UserRole, userMessage)];
    NonSystemOfContext(c, history, userMessage);
    FirstSystemOfContext(c, history, userMessage);
    AnthropicRequestOf(config.selectedModel, BuildContext(c, history, userMessage), c);
    forall i | 0 <= i < |win|
      ensures win[i].role != SystemRole
    {
      assert win[i] in NonSystem(BuildContext(c, history, userMessage));
    }
  }

  /** The Anthropic request of a context: its first system text and its
      conversational entries. */
  lemma AnthropicRequestOf(model: string, ctx: seq<Entry>, c: Character)
    ensures RequestFor(Anthropic, model, ctx, c)
         == AnthropicMessages(model, FirstSystemContent(ctx), NonSystem(ctx), c.temperature, c.maxTokens)
  {
  }

  /** Cohere receives the new user turn as `message`, the system prompt as
      `preamble`, and the window as `chat_history` with USER/CHATBOT roles. */
  lemma {:induction false} CohereSplitsLastTurn(config: AIConfig, c: Character, history: seq<Message>,
                                                userMessage: string)
    ensures RequestFor(Cohere, config.selectedModel, BuildContext(c, history, userMessage), c)
         == CohereChat(config.selectedModel, userMessage, SystemPromptFor(c),
                       CohereTurns(WindowEntries(history)), c.temperature, c.maxTokens)
  {
    var ctx := BuildContext(c, history, userMessage);
    NonSystemOfContext(c, history, userMessage);
    FirstSystemOfContext(c, history, userMessage);
    CohereRequestOf(config.selectedModel, ctx, c, WindowEntries(history), Entry(UserRole, userMessage));
  }

  /** A context opens with the system prompt, so that is its first system text. */
  lemma FirstSystemOfContext(c: Character, history: seq<Message>, userMessage: string)
    ensures FirstSystemContent(BuildContext(c, history, userMessage)) == SystemPromptFor(c)
  {
    assert IsSystem(BuildContext(c, history, userMessage)[0]);
  }

  /** The Cohere request of a context whose conversational entries are
      `earlier` followed by `last`. */
  lemma CohereRequestOf(model: string, ctx: seq<Entry>, c: Character, earlier: seq<Entry>, last: Entry)
    requires NonSystem(ctx) == earlier + [last]
    ensures RequestFor(Cohere, model, ctx, c)
         == CohereChat(model, last.content, FirstSystemContent(ctx), CohereTurns(earlier),
                       c.temperature, c.maxTokens)
  {
    var conv := NonSystem(ctx);
    assert conv[..|conv| - 1] == earlier;
  }

  /** In the Cohere history a turn is USER exactly when its message was the
      human's, and carries that message's text. */
  lemma CohereHistoryRoles(history: seq<Message>)
    ensures var w := Window(history);
            var ts := CohereTurns(WindowEntries(history));
            |ts| == |w|
            && forall i :: 0 <= i < |w| ==>
                 (ts[i].role == CohereUser <==> w[i].isUser) && ts[i].message == w[i].content
  {
  }
}
