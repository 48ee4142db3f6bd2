/** The scenario catalogue (`src/components/ScenarioManager.tsx`): search and
    atmosphere filtering, create and edit with validation, soft delete, the
    form's tag editor and the atmosphere icons. */
module ScenarioManager {
  import opened Wrappers
  import opened Text
  import opened Seqs
  import opened Types
  import opened TagLists

  /** The scenario form; `newTag` is the tag being typed. */
  datatype ScenarioForm = ScenarioForm(
    name: string,
    description: string,
    setting: string,
    atmosphere: Atmosphere,
    contextPrompt: string,
    tags: seq<string>,
    newTag: string)

  /** `resetForm` */
  const EmptyForm: ScenarioForm := ScenarioForm("", "", "", Casual, "", [], "")

  const RequiredFieldsMessage: string := "Nome e descrição são obrigatórios"

  // ---------------------------------------------------------------------------
  // Filtering
  // ---------------------------------------------------------------------------

  /** The name, the description or some tag contains the search term,
      ignoring case. */
  predicate MatchesSearch(s: Scenario, term: string) {
    var q := Lower(term);
    Contains(Lower(s.name), q) || Contains(Lower(s.description), q)
    || exists i :: 0 <= i < |s.tags| && Contains(Lower(s.tags[i]), q)
  }

  /** The atmosphere selector: `None` is "all atmospheres". */
  predicate MatchesAtmosphere(s: Scenario, selected: Option<Atmosphere>) {
    selected.None? || s.atmosphere == selected.value
  }

  predicate Listed(s: Scenario, term: string, selected: Option<Atmosphere>) {
    MatchesSearch(s, term) && MatchesAtmosphere(s, selected) && s.isActive
  }

  /** `filteredScenarios`: exactly the active scenarios that match the search
      and the atmosphere, in catalogue order. */
  function FilterScenarios(scenarios: seq<Scenario>, term: string, selected: Option<Atmosphere>): (r: seq<Scenario>)
    ensures IsSubsequence(r, scenarios)
    ensures forall i :: 0 <= i < |r| ==> r[i].isActive && MatchesAtmosphere(r[i], selected)
                                         && MatchesSearch(r[i], term)
    ensures forall i :: 0 <= i < |scenarios| && Listed(scenarios[i], term, selected) ==> scenarios[i] in r
  {
    Filter(scenarios, s => Listed(s, term, selected))
  }

  // ---------------------------------------------------------------------------
  // Create, edit, delete
  // ---------------------------------------------------------------------------

  /** The form passes validation when neither name nor description is blank. */
  predicate Valid(f: ScenarioForm) {
    !IsBlank(f.name) && !IsBlank(f.description)
  }

  /** `handleCreateScenario`: rejected when name or description is blank;
      otherwise one active scenario with the trimmed texts is appended. */
  function CreateScenario(scenarios: seq<Scenario>, f: ScenarioForm, id: string, now: int): (r: Result<seq<Scenario>, string>)
    ensures r.Err? <==> !Valid(f)
    ensures r.Err? ==> r.error == RequiredFieldsMessage
    ensures r.Ok? ==>
              |r.value| == |scenarios| + 1 && r.value[..|scenarios|] == scenarios
              && var s := r.value[|scenarios|];
                 s.id == id && s.isActive && s.createdAt == now
                 && s.name == Trim(f.name) && s.description == Trim(f.description)
                 && s.setting == Trim(f.setting) && s.contextPrompt == Trim(f.contextPrompt)
                 && s.atmosphere == f.atmosphere && s.tags == f.tags
                 && s.name != "" && s.description != ""
  {
    if !Valid(f) then Err(RequiredFieldsMessage)
    else
      var s := Scenario(id, Trim(f.name), Trim(f.description), Trim(f.setting), f.atmosphere,
                        Trim(f.contextPrompt), f.tags, true, now);
      assert (scenarios + [s])[..|scenarios|] == scenarios;
      Ok(scenarios + [s])
  }

  /** `handleEditScenario`: rejected without a scenario being edited or with
      a blank name or description; otherwise every scenario with the edited
      id takes the trimmed form fields and keeps its id, creation date and
      active flag, and all others are untouched. */
  function EditScenario(scenarios: seq<Scenario>, editing: Option<Scenario>, f: ScenarioForm): (r: Result<seq<Scenario>, string>)
    ensures r.Err? <==> editing.None? || !Valid(f)
    ensures r.Ok? ==>
              |r.value| == |scenarios|
              && forall i :: 0 <= i < |scenarios| ==>
                   if scenarios[i].id == editing.value.id
                   then r.value[i].id == editing.value.id
                        && r.value[i].createdAt == editing.value.createdAt
                        && r.value[i].isActive == editing.value.isActive
                        && r.value[i].name == Trim(f.name)
                        && r.value[i].description == Trim(f.description)
                        && r.value[i].setting == Trim(f.setting)
                        && r.value[i].contextPrompt == Trim(f.contextPrompt)
                        && r.value[i].atmosphere == f.atmosphere && r.value[i].tags == f.tags
                   else r.value[i] == scenarios[i]
  {
    if editing.None? || !Valid(f) then Err(RequiredFieldsMessage)
    else
      var e := editing.value;
      var updated := e.(name := Trim(f.name), description := Trim(f.description), setting := Trim(f.setting),
                        atmosphere := f.atmosphere, contextPrompt := Trim(f.contextPrompt), tags := f.tags);
      Ok(UpdateWhere(scenarios, (s: Scenario) => s.id == e.id, _ => updated))
  }

  /** `handleDeleteScenario`: soft delete, only the active flag of the
      scenarios with that id is cleared. */
  function DeleteScenario(scenarios: seq<Scenario>, id: string): (r: seq<Scenario>)
    ensures |r| == |scenarios|
    ensures forall i :: 0 <= i < |scenarios| ==>
              if scenarios[i].id == id then r[i] == scenarios[i].(isActive := false)
              else r[i] == scenarios[i]
  {
    UpdateWhere(scenarios, (s: Scenario) => s.id == id, (s: Scenario) => s.(isActive := false))
  }

  /** A deleted scenario is never listed again, whatever the search. */
  lemma DeletedNeverListed(scenarios: seq<Scenario>, id: string, term: string, selected: Option<Atmosphere>)
    ensures forall i :: 0 <= i < |FilterScenarios(DeleteScenario(scenarios, id), term, selected)| ==>
              FilterScenarios(DeleteScenario(scenarios, id), term, selected)[i].id != id
  {
    var d := DeleteScenario(scenarios, id);
    var r := FilterScenarios(d, term, selected);
    forall i | 0 <= i < |r|
      ensures r[i].id != id
    {
      assert r[i] in d;
      var k :| 0 <= k < |d| && d[k] == r[i];
      assert d[k].isActive;
    }
  }

  /** A created scenario is listed under its own atmosphere with an empty
      search. */
  lemma CreatedIsListed(scenarios: seq<Scenario>, f: ScenarioForm, id: string, now: int)
    requires Valid(f)
    ensures var r := CreateScenario(scenarios, f, id, now);
            r.Ok? && r.value[|scenarios|] in FilterScenarios(r.value, "", Some(f.atmosphere))
  {
    var r := CreateScenario(scenarios, f, id, now).value;
    ContainsEmpty(Lower(r[|scenarios|].name));
  }

  // ---------------------------------------------------------------------------
  // The form's tag editor
  // ---------------------------------------------------------------------------

  /** `addTag` on the form. */
  function AddTag(f: ScenarioForm): (r: ScenarioForm)
    ensures r.(tags := f.tags, newTag := f.newTag) == f
    ensures TagEdit(r.tags, r.newTag) == AddTrimmed(TagEdit(f.tags, f.newTag))
  {
    var e := AddTrimmed(TagEdit(f.tags, f.newTag));
    f.(tags := e.tags, newTag := e.input)
  }

  /** `removeTag` on the form. */
  function RemoveTag(f: ScenarioForm, t: string): (r: ScenarioForm)
    ensures r.(tags := f.tags) == f
    ensures t !in r.tags && IsSubsequence(r.tags, f.tags)
    ensures forall x :: x != t ==> (x in r.tags <==> x in f.tags)
  {
    f.(tags := RemoveAll(f.tags, t))
  }

  /** `startEdit`: the form shows the scenario's fields, with no pending tag;
      saving it unchanged keeps a trimmed scenario as it was. */
  function StartEdit(s: Scenario): (f: ScenarioForm)
    ensures Valid(f) <==> !IsBlank(s.name) && !IsBlank(s.description)
    ensures f.newTag == ""
  {
    ScenarioForm(s.name, s.description, s.setting, s.atmosphere, s.contextPrompt, s.tags, "")
  }

  /** Saving a scenario's edit form unchanged stores that scenario with its
      texts trimmed, when its name and description are not blank. */
  lemma EditOpenedScenario(scenarios: seq<Scenario>, s: Scenario)
    requires !IsBlank(s.name) && !IsBlank(s.description)
    ensures var r := EditScenario(scenarios, Some(s), StartEdit(s));
            r.Ok?
            && forall i :: 0 <= i < |scenarios| && scenarios[i].id == s.id ==>
                 r.value[i] == s.(name := Trim(s.name), description := Trim(s.description),
                                  setting := Trim(s.setting), contextPrompt := Trim(s.contextPrompt))
  {
  }

  /** Opening a scenario in the form and saving it unchanged keeps the
      catalogue as it was, for scenarios whose texts are already trimmed and
      whose name and description are not empty. */
  lemma EditRoundTrip(scenarios: seq<Scenario>, s: Scenario)
    requires s.name != "" && s.description != ""
    requires Trim(s.name) == s.name && Trim(s.description) == s.description
    requires Trim(s.setting) == s.setting && Trim(s.contextPrompt) == s.contextPrompt
    requires forall i :: 0 <= i < |scenarios| && scenarios[i].id == s.id ==> scenarios[i] == s
    ensures EditScenario(scenarios, Some(s), StartEdit(s)) == Ok(scenarios)
  {
    var r := EditScenario(scenarios, Some(s), StartEdit(s));
    assert r.Ok?;
    assert r.value == scenarios;
  }

  // ---------------------------------------------------------------------------
  // Icons
  // ---------------------------------------------------------------------------

  /** `getAtmosphereIcon`: one emoji per atmosphere. The fallback of the
      source cannot be reached for a typed atmosphere. */
  function AtmosphereIcon(a: Atmosphere): (icon: string)
    ensures icon != ""
  {
    match a
    case AtmRomantic => "\U{1F495}"
    case AtmMysterious => "\U{1F52E}"
    case Adventurous => "\U{1F5FA}\U{FE0F}"
    case Casual => "\U{2615}"
    case Dramatic => "\U{1F3AD}"
    case AtmPlayful => "\U{1F388}"
  }

  /** Different atmospheres have different icons. */
  lemma AtmosphereIconInjective(a: Atmosphere, b: Atmosphere)
    requires a != b
    ensures AtmosphereIcon(a) != AtmosphereIcon(b)
  {
    assert AtmosphereIcon(a)[0] != AtmosphereIcon(b)[0];
  }
}
