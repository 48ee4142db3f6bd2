/** The template gallery (`src/components/CharacterTemplates.tsx`): the
    built-in templates followed by the user's own, narrowed by a search text
    and a category. The built-in list is a parameter (`defaults`). */
module CharacterTemplates {
  import opened Text
  import opened Seqs
  import opened Types

  /** The category selector: every category, or exactly one. */
  datatype CategoryChoice = AllCategories | Only(category: TemplateCategory)

  /** `allTemplates`: the built-in templates, then the custom ones. */
  function AllTemplates(defaults: seq<CharacterTemplate>, custom: seq<CharacterTemplate>): (r: seq<CharacterTemplate>)
    ensures |r| == |defaults| + |custom|
    ensures r[..|defaults|] == defaults && r[|defaults|..] == custom
  {
    defaults + custom
  }

  /** The lower-cased search text occurs in the name, the description or one
      of the tags, each lower-cased. An empty search text occurs in all. */
  predicate MatchesSearch(t: CharacterTemplate, search: string) {
    var q := Lower(search);
    Contains(Lower(t.name), q) || Contains(Lower(t.description), q)
    || exists i :: 0 <= i < |t.tags| && Contains(Lower(t.tags[i]), q)
  }

  predicate MatchesCategory(t: CharacterTemplate, choice: CategoryChoice) {
    choice.AllCategories? || t.category == choice.category
  }

  function TemplateFilter(search: string, choice: CategoryChoice): CharacterTemplate -> bool {
    t => MatchesSearch(t, search) && MatchesCategory(t, choice)
  }

  /** `filteredTemplates`: the templates matching both the search and the
      category, in gallery order. */
  function FilteredTemplates(defaults: seq<CharacterTemplate>, custom: seq<CharacterTemplate>,
                             search: string, choice: CategoryChoice): (r: seq<CharacterTemplate>)
    ensures IsSubsequence(r, AllTemplates(defaults, custom))
    ensures forall t :: t in r <==>
              (t in defaults || t in custom) && MatchesSearch(t, search) && MatchesCategory(t, choice)
  {
    var all := AllTemplates(defaults, custom);
    FilterMembers(all, TemplateFilter(search, choice));
    Filter(all, TemplateFilter(search, choice))
  }

  /** With an empty search and every category, the gallery shows every
      template, built-in ones first. */
  lemma {:induction false} NoFilterShowsAll(defaults: seq<CharacterTemplate>, custom: seq<CharacterTemplate>)
    ensures FilteredTemplates(defaults, custom, "", AllCategories) == defaults + custom
  {
    var all := defaults + custom;
    forall i | 0 <= i < |all|
      ensures TemplateFilter("", AllCategories)(all[i])
    {
      ContainsEmpty(Lower(all[i].name));
    }
    FilterKeepsAll(all, TemplateFilter("", AllCategories));
  }

  /** Picking one category shows exactly the templates of that category
      that the "all" view shows. */
  lemma CategoryNarrowsAll(defaults: seq<CharacterTemplate>, custom: seq<CharacterTemplate>,
                           search: string, c: TemplateCategory)
    ensures forall t :: t in FilteredTemplates(defaults, custom, search, Only(c)) <==>
              t in FilteredTemplates(defaults, custom, search, AllCategories) && t.category == c
  {
  }

  /** The search ignores case: a text and its lower-cased form find the same
      templates. */
  lemma SearchIgnoresCase(t: CharacterTemplate, search: string)
    ensures MatchesSearch(t, search) <==> MatchesSearch(t, Lower(search))
  {
    LowerIdempotent(search);
  }
}
