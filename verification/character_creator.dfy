/** The character form (`src/components/CharacterCreator.tsx`): its initial
    values, the age input, the interest editor, the generated system prompt
    and the validation on submit. */
module CharacterCreator {
  import opened Wrappers
  import opened Text
  import opened Types
  import opened TagLists
  import opened JsValues

  /** The form state; `newInterest` is the interest being typed. */
  datatype CreatorForm = CreatorForm(
    name: string,
    avatar: string,
    age: int,
    personality: string,
    background: string,
    interests: seq<string>,
    conversationStyle: Style,
    memoryContext: string,
    customInstructions: string,
    aiModel: string,
    temperature: real,
    maxTokens: int,
    systemPrompt: string,
    lastChatAt: Option<int>,
    newInterest: string)

  const DefaultAge: int := 25
  const DefaultModel: string := "gpt-4"
  const DefaultTemperature: real := 0.8
  const DefaultMaxTokens: int := 1000

  const NameRequired: string := "Nome é obrigatório"
  const PersonalityRequired: string := "Personalidade é obrigatória"

  /** The initial form, empty for a new character and filled from the edited
      one otherwise. Each field falls back to its default when the
      character's value is falsy, so an age or temperature or token limit of
      0, an empty model id or a missing avatar take the defaults. */
  function InitialForm(existing: Option<Character>): (f: CreatorForm)
    ensures existing.None? ==>
              f == CreatorForm("", "", DefaultAge, "", "", [], Romantic, "", "", DefaultModel,
                               DefaultTemperature, DefaultMaxTokens, "", None, "")
    ensures existing.Some? ==>
              var c := existing.value;
              f.name == c.name && f.personality == c.personality && f.background == c.background
              && f.interests == c.interests && f.conversationStyle == c.conversationStyle
              && f.memoryContext == c.memoryContext && f.customInstructions == c.customInstructions
              && f.systemPrompt == c.systemPrompt && f.lastChatAt == c.lastChatAt && f.newInterest == ""
              && f.avatar == c.avatar.GetOr("")
              && (c.age.Some? && c.age.value != 0 ==> f.age == c.age.value)
              && (c.age.None? || c.age.value == 0 ==> f.age == DefaultAge)
              && (c.temperature != 0.0 ==> f.temperature == c.temperature)
              && (c.temperature == 0.0 ==> f.temperature == DefaultTemperature)
              && (c.maxTokens != 0 ==> f.maxTokens == c.maxTokens)
              && (c.maxTokens == 0 ==> f.maxTokens == DefaultMaxTokens)
              && (c.aiModel != "" ==> f.aiModel == c.aiModel)
              && (c.aiModel == "" ==> f.aiModel == DefaultModel)
  {
    match existing
    case None =>
      CreatorForm("", "", DefaultAge, "", "", [], Romantic, "", "", DefaultModel,
                  DefaultTemperature, DefaultMaxTokens, "", None, "")
    case Some(c) =>
      CreatorForm(c.name, OptStrOr(c.avatar, ""), OptIntOr(c.age, DefaultAge), c.personality,
                  c.background, c.interests, c.conversationStyle, c.memoryContext,
                  c.customInstructions, StrOr(c.aiModel, DefaultModel),
                  RealOr(c.temperature, DefaultTemperature), IntOr(c.maxTokens, DefaultMaxTokens),
                  c.systemPrompt, c.lastChatAt, "")
  }

  /** The age field: `parseInt(text) || 25`; an unreadable text and 0 both
      give 25. */
  function AgeInput(text: string): (age: int)
    ensures age != 0
    ensures ParseInt(text).None? ==> age == DefaultAge
    ensures ParseInt(text) == Some(0) ==> age == DefaultAge
    ensures ParseInt(text).Some? && ParseInt(text).value != 0 ==> age == ParseInt(text).value
  {
    OptIntOr(ParseInt(text), DefaultAge)
  }

  /** Typing a non-zero age in decimal gives that age. */
  lemma AgeInputReadsTypedAge(n: int)
    requires n != 0
    ensures AgeInput(IntToString(n)) == n
  {
    ParseIntOfIntToString(n);
  }

  /** `addInterest` on the form. */
  function AddInterest(f: CreatorForm): (r: CreatorForm)
    ensures r.(interests := f.interests, newInterest := f.newInterest) == f
    ensures TagEdit(r.interests, r.newInterest) == AddTrimmed(TagEdit(f.interests, f.newInterest))
  {
    var e := AddTrimmed(TagEdit(f.interests, f.newInterest));
    f.(interests := e.tags, newInterest := e.input)
  }

  /** `removeInterest` on the form. */
  function RemoveInterest(f: CreatorForm, i: string): (r: CreatorForm)
    ensures r.(interests := f.interests) == f
    ensures i !in r.interests
    ensures forall x :: x != i ==> (x in r.interests <==> x in f.interests)
  {
    f.(interests := RemoveAll(f.interests, i))
  }

  const CreatorGuidelines: string :=
    "DIRETRIZES IMPORTANTES:\n"
    + "- Responda SEMPRE em português brasileiro fluente e natural\n"
    + "- Mantenha consistência com sua personalidade e história\n"
    + "- Seja autêntico e humano em suas respostas\n"
    + "- Demonstre emoções e sentimentos reais\n"
    + "- Lembre-se de conversas anteriores quando relevante\n"
    + "- Adapte seu tom ao estilo de conversa configurado\n"
    + "- Seja envolvente e interessante\n"
    + "- Responda como uma pessoa real, não como IA\n"
    + "- Use gírias e expressões brasileiras quando apropriado\n"
    + "- Seja carinhoso e atencioso nos relacionamentos"

  // The fixed pieces of the generated prompt, between the form's fields.
  const Intro: string := "Você é "
  const NameAgeSep: string := ", "
  const PersonalityHeading: string := " anos.\n\nPERSONALIDADE E COMPORTAMENTO:\n"
  const BackgroundHeading: string := "\n\nHISTÓRIA E CONTEXTO:\n"
  const InterestsHeading: string := "\n\nINTERESSES: "
  const StyleHeading: string := "\n\nESTILO DE CONVERSA: "
  const InstructionsHeading: string := "\n\nINSTRUÇÕES ESPECIAIS:\n"
  const MemoryHeading: string := "\n\nCONTEXTO DE MEMÓRIA:\n"
  const GuidelinesBreak: string := "\n\n"

  function PromptParts(f: CreatorForm): seq<string> {
    [Intro, f.name, NameAgeSep, IntToString(f.age), PersonalityHeading,
     f.personality, BackgroundHeading, f.background, InterestsHeading,
     Join(f.interests, ", "), StyleHeading, StyleTag(f.conversationStyle),
     InstructionsHeading, f.customInstructions, MemoryHeading,
     f.memoryContext, GuidelinesBreak, CreatorGuidelines]
  }

  /** `generateSystemPrompt`: a prompt that embeds the name, the age, the
      personality, the background, every interest (and their ", "-joined
      list), the style tag, the custom instructions and the memory note. */
  function GeneratedPrompt(f: CreatorForm): (r: string)
    ensures IsPrefix("Você é ", r)
    ensures Contains(r, f.name) && Contains(r, IntToString(f.age))
    ensures Contains(r, f.personality) && Contains(r, f.background)
    ensures Contains(r, Join(f.interests, ", "))
    ensures forall i :: 0 <= i < |f.interests| ==> Contains(r, f.interests[i])
    ensures Contains(r, StyleTag(f.conversationStyle)) && Contains(r, f.customInstructions)
    ensures Contains(r, f.memoryContext)
  {
    var parts := PromptParts(f);
    var r := Concat(parts);
    ConcatStartsWith(parts);
    ConcatContainsEvery(parts);
    assert Contains(r, parts[1]) && Contains(r, parts[3]) && Contains(r, parts[5]) && Contains(r, parts[7]);
    assert Contains(r, parts[9]) && Contains(r, parts[11]) && Contains(r, parts[13]) && Contains(r, parts[15]);
    JoinedPartsContained(r, f.interests, ", ");
    r
  }

  /** The valid form as the saved record: every field as typed (nothing is
      trimmed), the avatar and age as given, and the generated prompt. */
  function DraftOf(f: CreatorForm): CharacterDraft {
    CharacterDraft(
      TemplateBody(f.name, Some(f.avatar), Some(f.age), f.personality, f.background, f.interests,
                   f.conversationStyle, f.memoryContext, f.customInstructions, f.aiModel,
                   f.temperature, f.maxTokens, GeneratedPrompt(f)),
      f.lastChatAt)
  }

  /** `handleSubmit`: a blank name is reported first, then a blank
      personality; a valid form is saved with a freshly generated prompt,
      whatever prompt the form held. */
  function Submit(f: CreatorForm): (r: Result<CharacterDraft, string>)
    ensures r.Ok? <==> !IsBlank(f.name) && !IsBlank(f.personality)
    ensures IsBlank(f.name) ==> r == Err(NameRequired)
    ensures !IsBlank(f.name) && IsBlank(f.personality) ==> r == Err(PersonalityRequired)
    ensures r.Ok? ==>
              r.value.body.systemPrompt == GeneratedPrompt(f)
              && r.value.body.name == f.name && r.value.body.personality == f.personality
              && r.value.body.interests == f.interests && r.value.lastChatAt == f.lastChatAt
    ensures r.Ok? ==>
              r.value.body.avatar == Some(f.avatar) && r.value.body.age == Some(f.age)
              && r.value.body.background == f.background && r.value.body.conversationStyle == f.conversationStyle
              && r.value.body.memoryContext == f.memoryContext
              && r.value.body.customInstructions == f.customInstructions
    ensures r.Ok? ==>
              r.value.body.aiModel == f.aiModel && r.value.body.temperature == f.temperature
              && r.value.body.maxTokens == f.maxTokens
  {
    if IsBlank(f.name) then Err(NameRequired)
    else if IsBlank(f.personality) then Err(PersonalityRequired)
    else Ok(DraftOf(f))
  }

  /** The prompt held by the form never reaches the saved record. */
  lemma SubmitIgnoresStoredPrompt(f: CreatorForm, p: string)
    ensures Submit(f.(systemPrompt := p)) == Submit(f)
  {
    assert PromptParts(f.(systemPrompt := p)) == PromptParts(f);
  }

  /** Opening a character in the form and saving it at once keeps every
      field except the prompt, which is regenerated, when the character's
      fields are truthy. */
  lemma EditKeepsCharacter(c: Character)
    requires !IsBlank(c.name) && !IsBlank(c.personality)
    requires c.avatar.Some? && c.age.Some? && c.age.value != 0
    requires c.temperature != 0.0 && c.maxTokens != 0 && c.aiModel != ""
    ensures var f := InitialForm(Some(c));
            Submit(f) == Ok(CharacterDraft(BodyOf(c).(systemPrompt := GeneratedPrompt(f)), c.lastChatAt))
  {
    var f := InitialForm(Some(c));
    if c.avatar.value == "" {
      assert f.avatar == "";
    }
    assert Some(f.avatar) == c.avatar;
  }

  /** A zero temperature does not survive editing: the form shows 0.8. */
  lemma ZeroTemperatureBecomesDefault(c: Character)
    requires c.temperature == 0.0
    ensures InitialForm(Some(c)).temperature == 0.8
  {
  }
}
