/** Moving characters between installations
    (`src/components/CharacterImportExport.tsx`): the selection, the JSON
    export, the compact share code, and the import of either.

    JSON and base64 are treated at the level of records: a parsed document is
    an `ImportData` or `ShareData` value, and reading a text is an oracle
    (`parseJson`, `decodeShare`) that yields `None` when the source's parser
    would throw. Fresh ids (`crypto.randomUUID`) come from `freshId`, the
    clock from `now`. */
module ImportExport {
  import opened Wrappers
  import opened Text
  import opened Seqs
  import opened Types
  import opened JsValues

  // ---------------------------------------------------------------------------
  // Selection
  // ---------------------------------------------------------------------------

  function Ids(chars: seq<Character>): (ids: seq<string>)
    ensures |ids| == |chars| && forall i :: 0 <= i < |chars| ==> ids[i] == chars[i].id
  {
    seq(|chars|, i requires 0 <= i < |chars| => chars[i].id)
  }

  /** `handleSelectAll`: clears the selection when it is as long as the list,
      otherwise selects every character. */
  function SelectAll(selected: seq<string>, chars: seq<Character>): (r: seq<string>)
    ensures |selected| == |chars| ==> r == []
    ensures |selected| != |chars| ==> r == Ids(chars)
  {
    if |selected| == |chars| then [] else Ids(chars)
  }

  /** Pressing "select all" on an empty selection and then again leaves
      nothing selected. */
  lemma SelectAllToggles(chars: seq<Character>)
    requires |chars| > 0
    ensures SelectAll([], chars) == Ids(chars)
    ensures SelectAll(SelectAll([], chars), chars) == []
  {
  }

  /** `handleCharacterSelect`: ticking appends the id, unticking removes every
      copy of it. */
  function SelectOne(selected: seq<string>, id: string, checked: bool): (r: seq<string>)
    ensures checked ==> r == selected + [id]
    ensures !checked ==> id !in r && forall x :: x != id ==> (x in r <==> x in selected)
  {
    if checked then selected + [id] else Filter(selected, (x: string) => x != id)
  }

  function IsSelected(selected: seq<string>): Character -> bool {
    (c: Character) => c.id in selected
  }

  /** The selected characters, in the list's order. */
  function Selection(chars: seq<Character>, selected: seq<string>): (r: seq<Character>)
    ensures IsSubsequence(r, chars)
    ensures forall c :: c in r <==> c in chars && c.id in selected
  {
    FilterMembers(chars, IsSelected(selected));
    Filter(chars, IsSelected(selected))
  }

  const SelectSomething: string := "Selecione pelo menos um personagem"

  // ---------------------------------------------------------------------------
  // Export
  // ---------------------------------------------------------------------------

  /** An exported character: its body, a message count of 0, and no id,
      creation date or last-chat date. */
  datatype ExportEntry = ExportEntry(body: TemplateBody, totalMessages: int)

  /** `exportSelected`: nothing without a selection; otherwise every selected
      character with its identity and history cleared and the rest kept. */
  function Export(chars: seq<Character>, selected: seq<string>): (r: Result<seq<ExportEntry>, string>)
    ensures r.Err? <==> |selected| == 0
    ensures r.Err? ==> r.error == SelectSomething
    ensures r.Ok? ==>
              var sel := Selection(chars, selected);
              |r.value| == |sel|
              && forall i :: 0 <= i < |sel| ==> r.value[i].body == BodyOf(sel[i]) && r.value[i].totalMessages == 0
  {
    if |selected| == 0 then Err(SelectSomething)
    else
      var sel := Selection(chars, selected);
      Ok(seq(|sel|, i requires 0 <= i < |sel| => ExportEntry(BodyOf(sel[i]), 0)))
  }

  // ---------------------------------------------------------------------------
  // Share code
  // ---------------------------------------------------------------------------

  /** One character of a share code: `{n, a, p, b, i, s, ci, temp, tokens}`.
      A field that is absent from the decoded document is `None`. */
  datatype ShareChar = ShareChar(
    n: Option<string>,
    a: Option<string>,
    p: Option<string>,
    b: Option<string>,
    i: Option<seq<string>>,
    s: Option<Style>,
    ci: Option<string>,
    temp: Option<real>,
    tokens: Option<int>)

  /** A field of a parsed document that should hold a list. */
  datatype Items<T> = Missing | NotArray | Array(items: seq<T>)

  /** A decoded share code: a version and the list of characters. */
  datatype ShareData = ShareData(v: Option<string>, chars: Items<ShareChar>)

  /** The share form of a character: nine fields, an absent avatar left out. */
  function ShareOf(c: Character): (sc: ShareChar)
    ensures sc.n == Some(c.name) && sc.a == c.avatar && sc.p == Some(c.personality)
    ensures sc.b == Some(c.background) && sc.i == Some(c.interests)
    ensures sc.s == Some(c.conversationStyle) && sc.ci == Some(c.customInstructions)
    ensures sc.temp == Some(c.temperature) && sc.tokens == Some(c.maxTokens)
  {
    ShareChar(Some(c.name), c.avatar, Some(c.personality), Some(c.background), Some(c.interests),
              Some(c.conversationStyle), Some(c.customInstructions), Some(c.temperature),
              Some(c.maxTokens))
  }

  /** `generateShareCode` before encoding: nothing without a selection,
      otherwise version "1.0" and the share form of each selected character. */
  function ShareDataOf(chars: seq<Character>, selected: seq<string>): (r: Result<ShareData, string>)
    ensures r.Err? <==> |selected| == 0
    ensures r.Err? ==> r.error == SelectSomething
    ensures r.Ok? ==>
              var sel := Selection(chars, selected);
              r.value.v == Some("1.0") && r.value.chars.Array? && |r.value.chars.items| == |sel|
              && forall i :: 0 <= i < |sel| ==> r.value.chars.items[i] == ShareOf(sel[i])
  {
    if |selected| == 0 then Err(SelectSomething)
    else
      var sel := Selection(chars, selected);
      Ok(ShareData(Some("1.0"), Array(seq(|sel|, i requires 0 <= i < |sel| => ShareOf(sel[i])))))
  }

  /** The characters of base64 text (RFC 4648 section 4), padding included. */
  predicate IsBase64Char(ch: char) {
    ('A' <= ch <= 'Z') || ('a' <= ch <= 'z') || ('0' <= ch <= '9') || ch == '+' || ch == '/' || ch == '='
  }

  /** What `btoa` produces for a non-empty document. */
  predicate IsBase64Text(s: string) {
    |s| > 0 && forall k :: 0 <= k < |s| ==> IsBase64Char(s[k])
  }

  // ---------------------------------------------------------------------------
  // Import
  // ---------------------------------------------------------------------------

  /** A character record as the importer reads it: any field may be absent
      (`None`); the importer looks at no other field. */
  datatype RawCharacter = RawCharacter(
    name: Option<string>,
    avatar: Option<string>,
    age: Option<int>,
    personality: Option<string>,
    background: Option<string>,
    interests: Option<seq<string>>,
    conversationStyle: Option<Style>,
    memoryContext: Option<string>,
    customInstructions: Option<string>,
    aiModel: Option<string>,
    temperature: Option<real>,
    maxTokens: Option<int>,
    systemPrompt: Option<string>)

  /** A parsed import document, reduced to its `characters` field. */
  datatype ImportData = ImportData(characters: Items<RawCharacter>)

  const ImportedName: string := "Personagem Importado"
  const ImportedModel: string := "openrouter/auto"
  const InvalidFormat: string := "Formato de dados inválido"
  const PasteCode: string := "Cole o código de importação"
  const InvalidCode: string := "Código inválido. Verifique o formato."
  const InvalidFile: string := "Arquivo inválido. Verifique o formato."

  /** One imported character: a fresh id, the creation time `now`, no
      messages, and each field as read unless it is absent or falsy, in which
      case it takes the importer's default. A list of interests, even an
      empty one, is kept. */
  function ImportCharacter(raw: RawCharacter, id: string, now: int): (c: Character)
    ensures c.id == id && c.createdAt == now && c.totalMessages == 0 && c.lastChatAt.None?
    ensures c.name == (if raw.name.Some? && raw.name.value != "" then raw.name.value else ImportedName)
    ensures c.avatar == Some(raw.avatar.GetOr(""))
    ensures c.age.Some? && c.age.value != 0
    ensures raw.age.Some? && raw.age.value != 0 ==> c.age == raw.age
    ensures (raw.age.None? || raw.age.value == 0) ==> c.age == Some(25)
    ensures c.personality == raw.personality.GetOr("") && c.background == raw.background.GetOr("")
    ensures c.interests == raw.interests.GetOr([])
    ensures c.conversationStyle == raw.conversationStyle.GetOr(Friendly)
    ensures c.memoryContext == raw.memoryContext.GetOr("")
    ensures c.customInstructions == raw.customInstructions.GetOr("")
    ensures c.aiModel != "" && (raw.aiModel.Some? && raw.aiModel.value != "" ==> c.aiModel == raw.aiModel.value)
    ensures (raw.aiModel.None? || raw.aiModel.value == "") ==> c.aiModel == ImportedModel
    ensures c.temperature != 0.0
    ensures raw.temperature.Some? && raw.temperature.value != 0.0 ==> c.temperature == raw.temperature.value
    ensures (raw.temperature.None? || raw.temperature.value == 0.0) ==> c.temperature == 0.8
    ensures c.maxTokens != 0
    ensures raw.maxTokens.Some? && raw.maxTokens.value != 0 ==> c.maxTokens == raw.maxTokens.value
    ensures (raw.maxTokens.None? || raw.maxTokens.value == 0) ==> c.maxTokens == 1000
    ensures c.systemPrompt == raw.systemPrompt.GetOr("")
  {
    Character(id, OptStrOr(raw.name, ImportedName), Some(OptStrOr(raw.avatar, "")),
              Some(OptIntOr(raw.age, 25)), OptStrOr(raw.personality, ""),
              OptStrOr(raw.background, ""), raw.interests.GetOr([]),
              raw.conversationStyle.GetOr(Friendly), OptStrOr(raw.memoryContext, ""),
              OptStrOr(raw.customInstructions, ""), OptStrOr(raw.aiModel, ImportedModel),
              OptRealOr(raw.temperature, 0.8), OptIntOr(raw.maxTokens, 1000),
              OptStrOr(raw.systemPrompt, ""), now, None, 0)
  }

  /** `processImportData`: a document whose `characters` is absent or not a
      list is refused; otherwise every record becomes one new character, in
      order, the i-th with id `freshId(i)`. */
  function ProcessImport(data: ImportData, freshId: nat -> string, now: int): (r: Result<seq<Character>, string>)
    ensures r.Err? <==> !data.characters.Array?
    ensures r.Err? ==> r.error == InvalidFormat
    ensures r.Ok? ==>
              |r.value| == |data.characters.items|
              && forall i :: 0 <= i < |r.value| ==>
                   r.value[i] == ImportCharacter(data.characters.items[i], freshId(i), now)
  {
    match data.characters
    case Array(items) =>
      Ok(seq(|items|, i requires 0 <= i < |items| => ImportCharacter(items[i], freshId(i), now)))
    case _ => Err(InvalidFormat)
  }

  /** Each imported character has its own id when the id source never
      repeats itself. */
  lemma ImportedIdsDistinct(data: ImportData, freshId: nat -> string, now: int)
    requires forall i: nat, j: nat :: i != j ==> freshId(i) != freshId(j)
    ensures var r := ProcessImport(data, freshId, now);
            r.Ok? ==> forall i, j :: 0 <= i < j < |r.value| ==> r.value[i].id != r.value[j].id
  {
  }

  /** The full record a share-code character stands for: its nine fields,
      falsy temperature and token limit already defaulted, and fixed age,
      memory, model and prompt. */
  function ShareToRaw(sc: ShareChar): (raw: RawCharacter)
    ensures raw.name == sc.n && raw.avatar == sc.a && raw.personality == sc.p
    ensures raw.background == sc.b && raw.interests == sc.i && raw.conversationStyle == sc.s
    ensures raw.customInstructions == sc.ci
    ensures raw.temperature.Some? && raw.temperature.value != 0.0
    ensures raw.maxTokens.Some? && raw.maxTokens.value != 0
    ensures raw.age == Some(25) && raw.memoryContext == Some("")
    ensures raw.aiModel == Some(ImportedModel) && raw.systemPrompt == Some("")
  {
    RawCharacter(sc.n, sc.a, Some(25), sc.p, sc.b, sc.i, sc.s, Some(""), sc.ci, Some(ImportedModel),
                 Some(OptRealOr(sc.temp, 0.8)), Some(OptIntOr(sc.tokens, 1000)), Some(""))
  }

  /** What pressing "import" leaves behind: the imported characters or the
      message shown, and the new content of the text box. */
  datatype CodeImport = CodeImport(result: Result<seq<Character>, string>, text: string)

  /** `importFromCode`. Blank text is refused and kept. Text that starts with
      '{' is read as a JSON export, anything else as a share code whose
      characters are first expanded to full records. A text that does not
      decode, or a share code without a list of characters, is refused with
      the text kept; once a document is in hand the box is cleared, whether
      the document is then imported or refused for its format. */
  function ImportFromCode(text: string, decodeShare: string -> Option<ShareData>,
                          parseJson: string -> Option<ImportData>, freshId: nat -> string, now: int): (r: CodeImport)
    ensures IsBlank(text) ==> r == CodeImport(Err(PasteCode), text)
    ensures !IsBlank(text) && IsPrefix("{", text) && parseJson(text).Some? ==>
              r == CodeImport(ProcessImport(parseJson(text).value, freshId, now), "")
    ensures !IsBlank(text) && IsPrefix("{", text) && parseJson(text).None? ==>
              r == CodeImport(Err(InvalidCode), text)
    ensures !IsBlank(text) && !IsPrefix("{", text) ==>
              (r.text == "" <==> decodeShare(text).Some? && decodeShare(text).value.chars.Array?)
    ensures !IsBlank(text) && r.result.Err? && r.text == "" ==> r.result.error == InvalidFormat
    ensures r.result.Ok? ==> r.text == ""
  {
    if IsBlank(text) then CodeImport(Err(PasteCode), text)
    else if !IsPrefix("{", text) then
      match decodeShare(text)
      case None => CodeImport(Err(InvalidCode), text)
      case Some(sd) =>
        match sd.chars
        case Array(items) =>
          var data := ImportData(Array(seq(|items|, i requires 0 <= i < |items| => ShareToRaw(items[i]))));
          CodeImport(ProcessImport(data, freshId, now), "")
        case _ => CodeImport(Err(InvalidCode), text)
    else
      match parseJson(text)
      case None => CodeImport(Err(InvalidCode), text)
      case Some(data) => CodeImport(ProcessImport(data, freshId, now), "")
  }

  /** `importFromFile` on the file's text. */
  function ImportFromFile(content: string, parseJson: string -> Option<ImportData>,
                          freshId: nat -> string, now: int): (r: Result<seq<Character>, string>)
    ensures parseJson(content).None? ==> r == Err(InvalidFile)
    ensures parseJson(content).Some? ==> r == ProcessImport(parseJson(content).value, freshId, now)
  {
    match parseJson(content)
    case None => Err(InvalidFile)
    case Some(data) => ProcessImport(data, freshId, now)
  }

  /** The JSON record an export entry is written as, read back field by
      field: every body field present, the avatar and age only when set. */
  function AsImportRecord(e: ExportEntry): (raw: RawCharacter)
    ensures raw.name == Some(e.body.name) && raw.avatar == e.body.avatar && raw.age == e.body.age
  {
    var b := e.body;
    RawCharacter(Some(b.name), b.avatar, b.age, Some(b.personality), Some(b.background),
                 Some(b.interests), Some(b.conversationStyle), Some(b.memoryContext),
                 Some(b.customInstructions), Some(b.aiModel), Some(b.temperature),
                 Some(b.maxTokens), Some(b.systemPrompt))
  }

  /** A character whose defaulted fields are all truthy: these survive every
      falsy-default step unchanged. */
  predicate Truthy(c: Character) {
    c.name != "" && c.avatar.Some? && c.age.Some? && c.age.value != 0 && c.aiModel != ""
    && c.temperature != 0.0 && c.maxTokens != 0
  }

  /** Exporting a selection to a file and importing that file gives, in
      order, new characters with the bodies of the selected ones, provided
      their fields are truthy. */
  lemma {:induction false} FileRoundTrip(chars: seq<Character>, selected: seq<string>, content: string,
                                         parseJson: string -> Option<ImportData>, freshId: nat -> string, now: int)
    requires |selected| > 0
    requires forall c :: c in chars ==> Truthy(c)
    requires var es := Export(chars, selected).value;
             parseJson(content) == Some(ImportData(Array(seq(|es|, i requires 0 <= i < |es| => AsImportRecord(es[i])))))
    ensures var sel := Selection(chars, selected);
            var r := ImportFromFile(content, parseJson, freshId, now);
            r.Ok? && |r.value| == |sel|
            && forall i :: 0 <= i < |sel| ==>
                 BodyOf(r.value[i]) == BodyOf(sel[i]) && r.value[i].id == freshId(i)
                 && r.value[i].createdAt == now && r.value[i].totalMessages == 0
  {
    var sel := Selection(chars, selected);
    var es := Export(chars, selected).value;
    var r := ImportFromFile(content, parseJson, freshId, now);
    forall i | 0 <= i < |sel|
      ensures BodyOf(r.value[i]) == BodyOf(sel[i])
    {
      assert sel[i] in sel;
      assert Truthy(sel[i]);
    }
  }

  /** What a character comes back as through a share code. */
  function SharedCopy(c: Character, id: string, now: int): Character {
    ImportCharacter(ShareToRaw(ShareOf(c)), id, now)
  }

  /** The share round trip: name (when non-empty), avatar, personality,
      background, interests, style and instructions survive; age, memory,
      model and prompt are replaced by the share code's fixed values; a zero
      temperature comes back as 0.8 and a zero token limit as 1000. */
  lemma ShareRoundTripFields(c: Character, id: string, now: int)
    ensures var d := SharedCopy(c, id, now);
            (c.name != "" ==> d.name == c.name) && (c.name == "" ==> d.name == ImportedName)
            && d.avatar == Some(c.avatar.GetOr("")) && d.personality == c.personality
            && d.background == c.background && d.interests == c.interests
            && d.conversationStyle == c.conversationStyle && d.customInstructions == c.customInstructions
            && d.age == Some(25) && d.memoryContext == "" && d.aiModel == ImportedModel && d.systemPrompt == ""
            && d.temperature == (if c.temperature != 0.0 then c.temperature else 0.8)
            && d.maxTokens == (if c.maxTokens != 0 then c.maxTokens else 1000)
  {
  }

  /** A base64 share code is never blank and never starts with '{', so
      pasting it takes the share-code path. */
  lemma Base64IsShareCode(code: string)
    requires IsBase64Text(code)
    ensures !IsBlank(code) && !IsPrefix("{", code)
  {
    BlankIffAllSpace(code);
    assert !IsSpace(code[0]);
  }

  /** Generating a share code for a selection and importing it elsewhere
      gives, in order, the shared copies of the selected characters, and
      clears the box. */
  lemma {:induction false} ShareCodeRoundTrip(chars: seq<Character>, selected: seq<string>, code: string,
                                              decodeShare: string -> Option<ShareData>,
                                              parseJson: string -> Option<ImportData>, freshId: nat -> string, now: int)
    requires |selected| > 0
    requires IsBase64Text(code)
    requires decodeShare(code) == Some(ShareDataOf(chars, selected).value)
    ensures var sel := Selection(chars, selected);
            var r := ImportFromCode(code, decodeShare, parseJson, freshId, now);
            r.text == "" && r.result.Ok? && |r.result.value| == |sel|
            && forall i :: 0 <= i < |sel| ==> r.result.value[i] == SharedCopy(sel[i], freshId(i), now)
  {
    Base64IsShareCode(code);
  }
}
