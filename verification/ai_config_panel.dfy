/** The provider settings panel (`src/components/AIConfigPanel.tsx`): the
    model catalogue, the censorship colours, the key status and masking, the
    edits the panel makes to its copy of the configuration, and saving it. */
module AIConfigPanel {
  import opened Wrappers
  import opened Text
  import opened Types
  import opened AIService

  // ---------------------------------------------------------------------------
  // Catalogue
  // ---------------------------------------------------------------------------

  /** One selectable model, listed under `provider`. */
  datatype ModelInfo = ModelInfo(provider: Provider, id: string, name: string, censorship: string,
                                 speed: string, quality: string, uncensored: bool)

  /** The catalogue, provider by provider, in the panel's order. */
  const Catalogue: seq<ModelInfo> := [
    ModelInfo(OpenAI, "gpt-4", "GPT-4", "alta", "média", "excelente", false),
    ModelInfo(OpenAI, "gpt-4-turbo", "GPT-4 Turbo", "alta", "rápida", "excelente", false),
    ModelInfo(OpenAI, "gpt-3.5-turbo", "GPT-3.5 Turbo", "alta", "muito rápida", "boa", false),
    ModelInfo(Anthropic, "claude-3-opus", "Claude 3 Opus", "média", "média", "excelente", false),
    ModelInfo(Anthropic, "claude-3-sonnet", "Claude 3 Sonnet", "média", "rápida", "muito boa", false),
    ModelInfo(Anthropic, "claude-3-haiku", "Claude 3 Haiku", "média", "muito rápida", "boa", false),
    ModelInfo(OpenRouter, "openrouter/auto", "Auto (Melhor disponível)", "baixa", "variável", "excelente", true),
    ModelInfo(OpenRouter, "anthropic/claude-3-opus", "Claude 3 Opus", "média", "média", "excelente", false),
    ModelInfo(OpenRouter, "meta-llama/llama-3-70b-instruct", "Llama 3 70B", "baixa", "rápida", "muito boa", true),
    ModelInfo(OpenRouter, "mistralai/mixtral-8x7b-instruct", "Mixtral 8x7B", "baixa", "rápida", "boa", true),
    ModelInfo(OpenRouter, "nousresearch/nous-hermes-2-mixtral-8x7b-dpo", "Nous Hermes 2 Mixtral", "muito baixa", "rápida", "muito boa", true),
    ModelInfo(Cohere, "command-r-plus", "Command R+", "baixa", "rápida", "muito boa", true),
    ModelInfo(Cohere, "command-r", "Command R", "baixa", "muito rápida", "boa", true),
    ModelInfo(Groq, "llama3-70b-8192", "Llama 3 70B", "baixa", "ultra rápida", "muito boa", true),
    ModelInfo(Groq, "mixtral-8x7b-32768", "Mixtral 8x7B", "baixa", "ultra rápida", "boa", true)
  ]

  lemma OpenAIModelsRouted()
    ensures ProviderOf("gpt-4") == OpenAI && ProviderOf("gpt-4-turbo") == OpenAI
    ensures ProviderOf("gpt-3.5-turbo") == OpenAI
  {
    assert IsPrefix("gpt-", "gpt-4");
    assert IsPrefix("gpt-", "gpt-4-turbo");
    assert IsPrefix("gpt-", "gpt-3.5-turbo");
  }

  lemma AnthropicModelsRouted()
    ensures ProviderOf("claude-3-opus") == Anthropic && ProviderOf("claude-3-sonnet") == Anthropic
    ensures ProviderOf("claude-3-haiku") == Anthropic
  {
    DiffersAt("gpt-", "claude-3-opus", 0);
    DiffersAt("gpt-", "claude-3-sonnet", 0);
    DiffersAt("gpt-", "claude-3-haiku", 0);
    assert IsPrefix("claude-", "claude-3-opus");
    assert IsPrefix("claude-", "claude-3-sonnet");
    assert IsPrefix("claude-", "claude-3-haiku");
  }

  /** A model id with a slash at `k` that starts with neither "gpt-" nor
      "claude-" is routed to OpenRouter. */
  lemma SlashRoutesToOpenRouter(id: string, k: nat)
    requires 0 < k < |id| && id[k] == '/' && id[0] != 'g' && id[0] != 'c'
    ensures ProviderOf(id) == OpenRouter
  {
    DiffersAt("gpt-", id, 0);
    DiffersAt("claude-", id, 0);
    assert id[k..k + 1] == "/";
    ContainsAt(id, "/", k);
  }

  lemma CohereModelsRouted()
    ensures ProviderOf("command-r-plus") == Cohere && ProviderOf("command-r") == Cohere
  {
    DiffersAt("gpt-", "command-r-plus", 0);
    DiffersAt("gpt-", "command-r", 0);
    DiffersAt("claude-", "command-r-plus", 1);
    DiffersAt("claude-", "command-r", 1);
    MissingChar("command-r-plus", "/", '/');
    MissingChar("command-r", "/", '/');
    assert IsPrefix("command-", "command-r-plus");
    assert IsPrefix("command-", "command-r");
  }

  lemma GroqModelsRouted()
    ensures ProviderOf("llama3-70b-8192") == Groq && ProviderOf("mixtral-8x7b-32768") == Groq
  {
    DiffersAt("gpt-", "llama3-70b-8192", 0);
    DiffersAt("gpt-", "mixtral-8x7b-32768", 0);
    DiffersAt("claude-", "llama3-70b-8192", 0);
    DiffersAt("claude-", "mixtral-8x7b-32768", 0);
    DiffersAt("command-", "llama3-70b-8192", 0);
    DiffersAt("command-", "mixtral-8x7b-32768", 0);
    MissingChar("llama3-70b-8192", "/", '/');
    MissingChar("mixtral-8x7b-32768", "/", '/');
    assert "llama3-70b-8192"[0..5] == "llama";
    ContainsAt("llama3-70b-8192", "llama", 0);
    assert "mixtral-8x7b-32768"[0..7] == "mixtral";
    ContainsAt("mixtral-8x7b-32768", "mixtral", 0);
  }

  /** The OpenRouter ids of the catalogue (entries 6 to 10) each have a
      slash and start with neither 'g' nor 'c'. */
  lemma CatalogueOpenRouterRouted(i: nat)
    requires 6 <= i < 11
    ensures ProviderOf(Catalogue[i].id) == OpenRouter
  {
    if i == 6 {
      SlashRoutesToOpenRouter("openrouter/auto", 10);
    } else if i == 7 {
      SlashRoutesToOpenRouter("anthropic/claude-3-opus", 9);
    } else if i == 8 {
      SlashRoutesToOpenRouter("meta-llama/llama-3-70b-instruct", 10);
    } else if i == 9 {
      SlashRoutesToOpenRouter("mistralai/mixtral-8x7b-instruct", 9);
    } else {
      SlashRoutesToOpenRouter("nousresearch/nous-hermes-2-mixtral-8x7b-dpo", 12);
    }
  }

  /** Every catalogue model is routed by the service to the provider it is
      listed under, so picking it uses that provider's key. */
  lemma CatalogueRoutedAsListed()
    ensures forall i :: 0 <= i < |Catalogue| ==> ProviderOf(Catalogue[i].id) == Catalogue[i].provider
  {
    forall i | 0 <= i < |Catalogue|
      ensures ProviderOf(Catalogue[i].id) == Catalogue[i].provider
    {
      if i < 3 {
        OpenAIModelsRouted();
      } else if i < 6 {
        AnthropicModelsRouted();
      } else if i < 11 {
        CatalogueOpenRouterRouted(i);
      } else if i < 13 {
        CohereModelsRouted();
      } else {
        GroqModelsRouted();
      }
    }
  }

  // ---------------------------------------------------------------------------
  // Censorship
  // ---------------------------------------------------------------------------

  const Gray: string := "text-gray-500"

  predicate KnownLevel(level: string) {
    level == "alta" || level == "média" || level == "baixa" || level == "muito baixa"
  }

  /** `getCensorshipColor`: red, yellow, green and emerald for the four
      levels, gray for any other text. */
  function CensorshipColor(level: string): (color: string)
    ensures level == "alta" ==> color == "text-red-500"
    ensures level == "média" ==> color == "text-yellow-500"
    ensures level == "baixa" ==> color == "text-green-500"
    ensures level == "muito baixa" ==> color == "text-emerald-500"
    ensures color == Gray <==> !KnownLevel(level)
  {
    if level == "alta" then "text-red-500"
    else if level == "média" then "text-yellow-500"
    else if level == "baixa" then "text-green-500"
    else if level == "muito baixa" then "text-emerald-500"
    else Gray
  }

  /** The catalogue uses only the four known levels, and a model is flagged
      uncensored exactly when its level is low or very low. */
  lemma CatalogueLevelsConsistent()
    ensures forall i :: 0 <= i < |Catalogue| ==> CensorshipColor(Catalogue[i].censorship) != Gray
    ensures forall i :: 0 <= i < |Catalogue| ==>
              (Catalogue[i].uncensored <==> Catalogue[i].censorship in {"baixa", "muito baixa"})
  {
  }

  // ---------------------------------------------------------------------------
  // Keys
  // ---------------------------------------------------------------------------

  /** The key slot of a provider (`provider.keyField`). */
  function KeyOf(config: AIConfig, p: Provider): Option<string> {
    match p
    case OpenAI => config.openaiApiKey
    case Anthropic => config.anthropicApiKey
    case OpenRouter => config.openRouterApiKey
    case Cohere => config.cohereApiKey
    case Groq => config.groqApiKey
  }

  /** `{ ...prev, [provider.keyField]: value }` */
  function SetKey(config: AIConfig, p: Provider, value: string): (r: AIConfig)
    ensures KeyOf(r, p) == Some(value)
    ensures forall q :: q != p ==> KeyOf(r, q) == KeyOf(config, q)
    ensures r.selectedModel == config.selectedModel && r.temperature == config.temperature
    ensures r.maxTokens == config.maxTokens
  {
    match p
    case OpenAI => config.(openaiApiKey := Some(value))
    case Anthropic => config.(anthropicApiKey := Some(value))
    case OpenRouter => config.(openRouterApiKey := Some(value))
    case Cohere => config.(cohereApiKey := Some(value))
    case Groq => config.(groqApiKey := Some(value))
  }

  /** `isKeyConfigured`: the key slot holds a non-empty string. */
  predicate IsKeyConfigured(form: AIConfig, p: Provider) {
    var key := KeyOf(form, p);
    key.Some? && key.value != ""
  }

  /** The panel marks a provider "configured" exactly when the service would
      find its key and issue a request. */
  lemma ConfiguredMeansServiceHasKey(form: AIConfig, p: Provider)
    ensures IsKeyConfigured(form, p) <==> HasKey(form, p)
  {
  }

  const Ellipsis: string := "..."

  /** `maskApiKey`: nothing for an absent or empty key, the whole key when
      keys are shown, and otherwise its first eight characters followed by
      "...". */
  function MaskApiKey(key: Option<string>, showKeys: bool): (r: string)
    ensures key.None? || key.value == "" ==> r == ""
    ensures key.Some? && key.value != "" && showKeys ==> r == key.value
    ensures key.Some? && key.value != "" && !showKeys ==>
              |r| == (if |key.value| < 8 then |key.value| else 8) + 3
              && IsPrefix(r[..|r| - 3], key.value) && r[|r| - 3..] == Ellipsis
  {
    if key.None? || key.value == "" then ""
    else if showKeys then key.value
    else
      var k := key.value;
      var head := if |k| < 8 then k else k[..8];
      head + Ellipsis
  }

  // ---------------------------------------------------------------------------
  // The panel's copy of the configuration
  // ---------------------------------------------------------------------------

  /** The panel: its working copy of the configuration and the "show full
      keys" switch. */
  datatype Panel = Panel(form: AIConfig, showKeys: bool)

  /** The panel opens on a copy of the current configuration, keys masked. */
  function Open(config: AIConfig): (p: Panel)
    ensures p.form == config && !p.showKeys
  {
    Panel(config, false)
  }

  /** Clicking a model card: only the selected model changes. */
  function SelectModel(p: Panel, id: string): (r: Panel)
    ensures r.form.selectedModel == id
    ensures r.form.(selectedModel := p.form.selectedModel) == p.form && r.showKeys == p.showKeys
  {
    p.(form := p.form.(selectedModel := id))
  }

  /** The temperature slider (0 to 1 in steps of 0.1), at its `step`-th stop. */
  function SetTemperature(p: Panel, step: int): (r: Panel)
    requires 0 <= step <= 10
    ensures 0.0 <= r.form.temperature <= 1.0
    ensures r.form.(temperature := p.form.temperature) == p.form && r.showKeys == p.showKeys
  {
    p.(form := p.form.(temperature := step as real / 10.0))
  }

  /** The token slider (100 to 4000 in steps of 100), at its `stop`-th stop. */
  function SetMaxTokens(p: Panel, stop: int): (r: Panel)
    requires 1 <= stop <= 40
    ensures 100 <= r.form.maxTokens <= 4000 && r.form.maxTokens % 100 == 0
    ensures r.form.(maxTokens := p.form.maxTokens) == p.form && r.showKeys == p.showKeys
  {
    p.(form := p.form.(maxTokens := 100 * stop))
  }

  /** `handleSave`: the configuration handed back is the working copy. */
  function Save(p: Panel): (saved: AIConfig)
    ensures saved == p.form
  {
    p.form
  }

  /** Opening the panel and saving at once hands back the configuration it
      was opened with; picking a model and saving changes only the model. */
  lemma SaveKeepsUnedited(config: AIConfig, id: string)
    ensures Save(Open(config)) == config
    ensures Save(SelectModel(Open(config), id)) == config.(selectedModel := id)
  {
  }

  // ---------------------------------------------------------------------------
  // Typing into a key field
  // ---------------------------------------------------------------------------

  /** A keystroke in a key field as written: the field displays the masked
      key, and its change handler stores the displayed text with the typed
      character appended. */
  function KeyTypedAsWritten(p: Panel, provider: Provider, ch: char): (r: Panel)
    ensures KeyOf(r.form, provider) == Some(MaskApiKey(KeyOf(p.form, provider), p.showKeys) + [ch])
  {
    p.(form := SetKey(p.form, provider, MaskApiKey(KeyOf(p.form, provider), p.showKeys) + [ch]))
  }

  /** Typing a text into a key field one character at a time, as written. */
  function TypeKeyAsWritten(p: Panel, provider: Provider, s: string): (r: Panel)
    ensures r.showKeys == p.showKeys
    decreases |s|
  {
    if |s| == 0 then p else TypeKeyAsWritten(KeyTypedAsWritten(p, provider, s[0]), provider, s[1..])
  }

  /** With keys masked, a stored key of at least two characters has '.' as
      its second character after any further keystroke. */
  lemma {:induction false} MaskedKeyKeepsDot(p: Panel, provider: Provider, s: string)
    requires !p.showKeys
    requires var k := KeyOf(p.form, provider); k.Some? && |k.value| >= 2 && k.value[1] == '.'
    ensures var k := KeyOf(TypeKeyAsWritten(p, provider, s).form, provider);
            k.Some? && |k.value| >= 2 && k.value[1] == '.'
    decreases |s|
  {
    if |s| > 0 {
      var next := KeyTypedAsWritten(p, provider, s[0]);
      var k := KeyOf(p.form, provider).value;
      var masked := MaskApiKey(KeyOf(p.form, provider), false);
      assert masked[1] == k[1];
      MaskedKeyKeepsDot(next, provider, s[1..]);
    }
  }

  /** With keys masked, typing a key of two or more characters into an empty
      field stores a text whose second character is '.', so no key whose
      second character is not '.' can be typed in; typing "sk" stores
      "s...k". */
  lemma {:induction false} MaskedTypingCorruptsKey(p: Panel, provider: Provider, s: string)
    requires !p.showKeys && KeyOf(p.form, provider).None?
    requires |s| >= 2
    ensures var k := KeyOf(TypeKeyAsWritten(p, provider, s).form, provider);
            k.Some? && |k.value| >= 2 && k.value[1] == '.'
    ensures s[1] != '.' ==> KeyOf(TypeKeyAsWritten(p, provider, s).form, provider) != Some(s)
    ensures s == "sk" ==> KeyOf(TypeKeyAsWritten(p, provider, s).form, provider) == Some("s...k")
  {
    var p1 := KeyTypedAsWritten(p, provider, s[0]);
    assert MaskApiKey(None, false) + [s[0]] == [s[0]];
    assert KeyOf(p1.form, provider) == Some([s[0]]);
    var p2 := KeyTypedAsWritten(p1, provider, s[1]);
    assert KeyOf(p2.form, provider) == Some([s[0]] + Ellipsis + [s[1]]);
    assert TypeKeyAsWritten(p, provider, s) == TypeKeyAsWritten(p2, provider, s[2..]) by {
      assert s[1..][0] == s[1] && s[1..][1..] == s[2..];
    }
    MaskedKeyKeepsDot(p2, provider, s[2..]);
    if s == "sk" {
      assert s[2..] == [];
      assert s[0] == 's' && s[1] == 'k';
      assert [s[0]] + Ellipsis + [s[1]] == "s...k";
    }
  }

  /** A keystroke in a key field as evidently intended: the character is
      appended to the stored key, whatever the field displays. */
  function KeyTyped(p: Panel, provider: Provider, ch: char): (r: Panel)
    ensures KeyOf(r.form, provider) == Some(KeyOf(p.form, provider).GetOr("") + [ch])
    ensures forall q :: q != provider ==> KeyOf(r.form, q) == KeyOf(p.form, q)
    ensures r.form.selectedModel == p.form.selectedModel && r.showKeys == p.showKeys
  {
    p.(form := SetKey(p.form, provider, KeyOf(p.form, provider).GetOr("") + [ch]))
  }

  function TypeKey(p: Panel, provider: Provider, s: string): Panel
    decreases |s|
  {
    if |s| == 0 then p else TypeKey(KeyTyped(p, provider, s[0]), provider, s[1..])
  }

  /** Typing a text into a key field appends exactly that text to the stored
      key, masked or not, and leaves the other keys alone. */
  lemma {:induction false} TypingEntersKey(p: Panel, provider: Provider, s: string)
    requires |s| > 0
    ensures KeyOf(TypeKey(p, provider, s).form, provider) == Some(KeyOf(p.form, provider).GetOr("") + s)
    ensures forall q :: q != provider ==> KeyOf(TypeKey(p, provider, s).form, q) == KeyOf(p.form, q)
    decreases |s|
  {
    var next := KeyTyped(p, provider, s[0]);
    if |s| > 1 {
      TypingEntersKey(next, provider, s[1..]);
      assert KeyOf(p.form, provider).GetOr("") + [s[0]] + s[1..] == KeyOf(p.form, provider).GetOr("") + s;
    } else {
      assert [s[0]] == s;
    }
  }
}
