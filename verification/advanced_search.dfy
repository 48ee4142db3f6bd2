/** The search panel (`src/components/AdvancedSearch.tsx`): the tags it
    offers, the staged filters over characters and conversations, the sort,
    the selected-tag editor and the active-filter badge.

    `localeCompare` on names is abstracted by a caller-given rank
    `collate: string -> real`; dates are integer milliseconds. */
module AdvancedSearch {
  import opened Wrappers
  import opened Text
  import opened Seqs
  import opened Types
  import opened TagLists
  import ConversationHistory

  datatype SortKey = ByName | ByLastChat | ByTotalMessages | ByCreated
  datatype SortOrder = Asc | Desc

  /** `SearchFilters`; a `None` style is "all styles", a `None` date bound is
      unset. */
  datatype SearchFilters = SearchFilters(
    query: string,
    style: Option<Style>,
    ageMin: int, ageMax: int,
    messagesMin: int, messagesMax: int,
    start: Option<int>, end: Option<int>,
    tags: seq<string>,
    sortBy: SortKey,
    order: SortOrder,
    includeConversations: bool)

  const DefaultFilters: SearchFilters :=
    SearchFilters("", None, 18, 100, 0, 1000, None, None, [], ByLastChat, Desc, true)

  // ---------------------------------------------------------------------------
  // Tags
  // ---------------------------------------------------------------------------

  /** The age bucket: a missing or zero age counts as adult. */
  function AgeBucket(age: Option<int>): (b: string)
    ensures b in ["jovem", "maduro", "adulto"]
    ensures b == "jovem" <==> age.Some? && age.value != 0 && age.value < 25
    ensures b == "maduro" <==> age.Some? && age.value != 0 && 40 < age.value
  {
    if age.Some? && age.value != 0 && age.value < 25 then "jovem"
    else if age.Some? && age.value != 0 && age.value > 40 then "maduro"
    else "adulto"
  }

  /** Style, model family (the model id before its first '-') and age
      bucket, before empty ones are dropped. */
  function DerivedTags(c: Character): seq<string> {
    [StyleTag(c.conversationStyle), BeforeFirst(c.aiModel, '-'), AgeBucket(c.age)]
  }

  predicate NonEmpty(t: string) {
    t != ""
  }

  /** The tags the tag filter tests a character against: its interests and
      derived tags, without empty ones. */
  function CharacterTags(c: Character): (ts: seq<string>)
    ensures forall t :: t in ts <==> t != "" && (t in c.interests || t in DerivedTags(c))
  {
    FilterMembers(c.interests + DerivedTags(c), NonEmpty);
    Filter(c.interests + DerivedTags(c), NonEmpty)
  }

  /** The tags a character contributes to the offered list: all of its
      interests (empty ones included) and its non-empty derived tags. */
  function OfferedTags(c: Character): (ts: seq<string>)
    ensures forall t :: t in ts <==> t in c.interests || (t != "" && t in DerivedTags(c))
  {
    FilterMembers(DerivedTags(c), NonEmpty);
    c.interests + Filter(DerivedTags(c), NonEmpty)
  }

  /** Some character of `chars` offers `t`. */
  predicate Offered(chars: seq<Character>, t: string) {
    exists i :: 0 <= i < |chars| && t in OfferedTags(chars[i])
  }

  lemma OfferedCons(chars: seq<Character>, t: string)
    requires |chars| > 0
    ensures Offered(chars, t) <==> t in OfferedTags(chars[0]) || Offered(chars[1..], t)
  {
    if Offered(chars, t) && t !in OfferedTags(chars[0]) {
      var i :| 0 <= i < |chars| && t in OfferedTags(chars[i]);
      assert chars[1..][i - 1] == chars[i];
    }
    if Offered(chars[1..], t) {
      var i :| 0 <= i < |chars[1..]| && t in OfferedTags(chars[1..][i]);
      assert chars[i + 1] == chars[1..][i];
    }
  }

  /** All offered tags of all characters, with repetitions. */
  function AllOfferedTags(chars: seq<Character>): (ts: seq<string>)
    ensures forall t :: t in ts <==> Offered(chars, t)
  {
    if |chars| == 0 then []
    else
      forall t ensures Offered(chars, t) <==> t in OfferedTags(chars[0]) || Offered(chars[1..], t) {
        OfferedCons(chars, t);
      }
      OfferedTags(chars[0]) + AllOfferedTags(chars[1..])
  }

  /** `availableTags`: every tag of every character once, in increasing
      order. */
  function AvailableTags(chars: seq<Character>): (ts: seq<string>)
    ensures StrictlySorted(ts)
    ensures forall t :: t in ts <==> Offered(chars, t)
  {
    SortedUnique(AllOfferedTags(chars))
  }

  /** Every tag the tag filter can match on is offered. */
  lemma FilterableTagsAreOffered(chars: seq<Character>, i: int, t: string)
    requires 0 <= i < |chars| && t in CharacterTags(chars[i])
    ensures t in AvailableTags(chars)
  {
    assert t in OfferedTags(chars[i]);
  }

  // ---------------------------------------------------------------------------
  // The character filter stages
  // ---------------------------------------------------------------------------

  /** The lower-cased query occurs in the name, personality, background or
      an interest. */
  predicate CharacterMatchesText(c: Character, q: string) {
    Contains(Lower(c.name), q) || Contains(Lower(c.personality), q)
    || Contains(Lower(c.background), q)
    || exists i :: 0 <= i < |c.interests| && Contains(Lower(c.interests[i]), q)
  }

  /** Some selected tag is one of the character's tags. */
  predicate MatchesSomeTag(c: Character, tags: seq<string>) {
    exists i :: 0 <= i < |tags| && tags[i] in CharacterTags(c)
  }

  const StageCount: nat := 7

  /** Whether stage `k` runs: text search, style, age range, message count,
      start date, end date, tags. The age and message-count stages always run. */
  predicate StageOn(f: SearchFilters, k: nat) {
    match k
    case 0 => !IsBlank(f.query)
    case 1 => f.style.Some?
    case 4 => f.start.Some?
    case 5 => f.end.Some?
    case 6 => |f.tags| > 0
    case _ => true
  }

  /** The test of stage `k`. */
  predicate StageTest(f: SearchFilters, k: nat, c: Character) {
    match k
    case 0 => CharacterMatchesText(c, Lower(f.query))
    case 1 => f.style.Some? && c.conversationStyle == f.style.value
    case 2 => c.age.Some? && c.age.value != 0 && f.ageMin <= c.age.value <= f.ageMax
    case 3 => f.messagesMin <= c.totalMessages <= f.messagesMax
    case 4 => f.start.Some? && c.createdAt >= f.start.value
    case 5 => f.end.Some? && c.createdAt <= f.end.value
    case 6 => MatchesSomeTag(c, f.tags)
    case _ => true
  }

  /** The test of stage `k` as a filter callback. */
  function StageFilter(f: SearchFilters, k: nat): Character -> bool {
    c => StageTest(f, k, c)
  }

  /** `if (on) list = list.filter(test)` */
  function RunStage(s: seq<Character>, f: SearchFilters, k: nat): seq<Character> {
    if StageOn(f, k) then Filter(s, StageFilter(f, k)) else s
  }

  /** The first `k` stages, in source order. */
  function Pipeline(chars: seq<Character>, f: SearchFilters, k: nat): seq<Character>
    decreases k
  {
    if k == 0 then chars else RunStage(Pipeline(chars, f, k - 1), f, k - 1)
  }

  /** A character passes the first `k` stages: each is off or accepts it. */
  predicate PassesUpTo(f: SearchFilters, c: Character, k: nat)
    decreases k
  {
    k == 0 || (PassesUpTo(f, c, k - 1) && (!StageOn(f, k - 1) || StageTest(f, k - 1, c)))
  }

  function PassFilter(f: SearchFilters, k: nat): Character -> bool {
    c => PassesUpTo(f, c, k)
  }

  /** The combined condition of all stages, written out. */
  predicate Passes(f: SearchFilters, c: Character) {
    (IsBlank(f.query) || CharacterMatchesText(c, Lower(f.query)))
    && (f.style.None? || c.conversationStyle == f.style.value)
    && c.age.Some? && c.age.value != 0 && f.ageMin <= c.age.value <= f.ageMax
    && f.messagesMin <= c.totalMessages <= f.messagesMax
    && (f.start.None? || c.createdAt >= f.start.value)
    && (f.end.None? || c.createdAt <= f.end.value)
    && (|f.tags| == 0 || MatchesSomeTag(c, f.tags))
  }

  lemma PassesAllStages(f: SearchFilters, c: Character)
    ensures PassesUpTo(f, c, StageCount) <==> Passes(f, c)
  {
    assert PassesUpTo(f, c, 1) <==> IsBlank(f.query) || CharacterMatchesText(c, Lower(f.query));
    assert PassesUpTo(f, c, 2) <==>
             PassesUpTo(f, c, 1) && (f.style.None? || c.conversationStyle == f.style.value);
    assert PassesUpTo(f, c, 3) <==>
             PassesUpTo(f, c, 2) && c.age.Some? && c.age.value != 0 && f.ageMin <= c.age.value <= f.ageMax;
    assert PassesUpTo(f, c, 4) <==>
             PassesUpTo(f, c, 3) && f.messagesMin <= c.totalMessages <= f.messagesMax;
    assert PassesUpTo(f, c, 5) <==> PassesUpTo(f, c, 4) && (f.start.None? || c.createdAt >= f.start.value);
    assert PassesUpTo(f, c, 6) <==> PassesUpTo(f, c, 5) && (f.end.None? || c.createdAt <= f.end.value);
    assert PassesUpTo(f, c, 7) <==> PassesUpTo(f, c, 6) && (|f.tags| == 0 || MatchesSomeTag(c, f.tags));
  }

  /** The staged pipeline keeps exactly the characters that pass every
      stage, in list order: each stage only filters. */
  lemma {:induction false} PipelineIsOneFilter(chars: seq<Character>, f: SearchFilters, k: nat)
    ensures Pipeline(chars, f, k) == Filter(chars, PassFilter(f, k))
    decreases k
  {
    if k == 0 {
      FilterKeepsAll(chars, PassFilter(f, 0));
    } else {
      PipelineIsOneFilter(chars, f, k - 1);
      StageOfFilter(chars, f, k);
    }
  }

  /** Running stage `k - 1` on the characters passing the first `k - 1`
      stages keeps those passing the first `k`. */
  lemma StageOfFilter(chars: seq<Character>, f: SearchFilters, k: nat)
    requires k > 0
    requires Pipeline(chars, f, k - 1) == Filter(chars, PassFilter(f, k - 1))
    ensures Pipeline(chars, f, k) == Filter(chars, PassFilter(f, k))
  {
    var p, q := PassFilter(f, k - 1), PassFilter(f, k);
    var on := StageOn(f, k - 1);
    var t := StageFilter(f, k - 1);
    forall i | 0 <= i < |chars|
      ensures q(chars[i]) == (p(chars[i]) && (!on || t(chars[i])))
    {
      PassStep(f, k, chars[i]);
    }
    if on {
      FilterFilter(chars, p, t, q);
    } else {
      FilterExtensional(chars, p, q);
    }
  }

  /** Passing `k` stages is passing the first `k - 1` and then stage `k - 1`. */
  lemma PassStep(f: SearchFilters, k: nat, c: Character)
    requires k > 0
    ensures PassFilter(f, k)(c)
         == (PassFilter(f, k - 1)(c) && (!StageOn(f, k - 1) || StageFilter(f, k - 1)(c)))
  {
  }

  // ---------------------------------------------------------------------------
  // Sorting
  // ---------------------------------------------------------------------------

  /** The numeric key the comparator subtracts; the name key is the
      collation rank, a missing last-chat date counts as 0. */
  function SortValue(key: SortKey, collate: string -> real, c: Character): real {
    match key
    case ByName => collate(c.name)
    case ByLastChat => c.lastChatAt.GetOr(0) as real
    case ByTotalMessages => c.totalMessages as real
    case ByCreated => c.createdAt as real
  }

  /** `sortCharacters`: ascending by the key, or descending for 'desc'. */
  function SortCharacters(s: seq<Character>, f: SearchFilters, collate: string -> real): (r: seq<Character>)
    ensures multiset(r) == multiset(s)
    ensures f.order == Asc ==>
              forall i, j :: 0 <= i < j < |r| ==> SortValue(f.sortBy, collate, r[i]) <= SortValue(f.sortBy, collate, r[j])
    ensures f.order == Desc ==>
              forall i, j :: 0 <= i < j < |r| ==> SortValue(f.sortBy, collate, r[i]) >= SortValue(f.sortBy, collate, r[j])
  {
    if f.order == Asc then SortAsc(s, OrderKey(f.sortBy, collate))
    else SortDesc(s, OrderKey(f.sortBy, collate))
  }

  /** The sort key of a character. */
  function OrderKey(field: SortKey, collate: string -> real): (key: Character -> real) {
    c => SortValue(field, collate, c)
  }

  /** The sort is stable: characters with the same sort value keep their
      input order, in both directions. */
  lemma SortCharactersStable(s: seq<Character>, f: SearchFilters, collate: string -> real, k: real)
    ensures Filter(SortCharacters(s, f, collate), KeyIs(OrderKey(f.sortBy, collate), k))
         == Filter(s, KeyIs(OrderKey(f.sortBy, collate), k))
  {
    if f.order == Asc {
      SortAscStable(s, OrderKey(f.sortBy, collate), k);
    } else {
      SortDescStable(s, OrderKey(f.sortBy, collate), k);
    }
  }

  /** The character half of `applyFilters`. */
  function FilterCharacters(chars: seq<Character>, f: SearchFilters, collate: string -> real): seq<Character>
  {
    SortCharacters(Pipeline(chars, f, StageCount), f, collate)
  }

  /** The characters found are exactly those of the input that pass every
      filter, each as often as in the input, in the requested order. In
      particular a character without an age (or with age 0) is never found,
      and the message-count range always applies. */
  lemma FilterCharactersMeaning(chars: seq<Character>, f: SearchFilters, collate: string -> real)
    ensures var r := FilterCharacters(chars, f, collate);
            multiset(r) == multiset(Filter(chars, PassFilter(f, StageCount)))
            && (forall c :: c in r <==> c in chars && Passes(f, c))
            && (forall i :: 0 <= i < |r| ==> r[i].age.Some? && r[i].age.value != 0)
            && (forall i :: 0 <= i < |r| ==> f.messagesMin <= r[i].totalMessages <= f.messagesMax)
  {
    PipelineIsOneFilter(chars, f, StageCount);
    var r := FilterCharacters(chars, f, collate);
    assert multiset(r) == multiset(Pipeline(chars, f, StageCount));
    PassingMembers(r, chars, f);
  }

  /** A permutation of the one-filter result holds exactly the input
      characters that pass every stage. */
  lemma PassingMembers(r: seq<Character>, chars: seq<Character>, f: SearchFilters)
    requires multiset(r) == multiset(Filter(chars, PassFilter(f, StageCount)))
    ensures forall c :: c in r <==> c in chars && Passes(f, c)
    ensures forall i :: 0 <= i < |r| ==> Passes(f, r[i])
  {
    PermutationSameElements(r, Filter(chars, PassFilter(f, StageCount)));
    FilterMembers(chars, PassFilter(f, StageCount));
    forall c ensures PassFilter(f, StageCount)(c) <==> Passes(f, c) {
      PassesAllStages(f, c);
    }
    assert forall c :: c in r <==> c in chars && Passes(f, c);
    forall i | 0 <= i < |r| ensures Passes(f, r[i]) {
      assert r[i] in r;
    }
  }

  // ---------------------------------------------------------------------------
  // Conversations
  // ---------------------------------------------------------------------------

  /** The conversation text, start-date and end-date filters; each is off
      when its input is blank or unset. */
  function ConversationStages(convs: seq<Conversation>, f: SearchFilters): (r: seq<Conversation>)
    ensures forall cv :: cv in r <==>
              cv in convs
              && (IsBlank(f.query) || ConversationHistory.ConversationMatchesText(cv, Lower(f.query)))
              && (f.start.None? || cv.createdAt >= f.start.value)
              && (f.end.None? || cv.createdAt <= f.end.value)
  {
    var q := Lower(f.query);
    var p1 := (cv: Conversation) => ConversationHistory.ConversationMatchesText(cv, q);
    var s1 := if !IsBlank(f.query) then Filter(convs, p1) else convs;
    FilterMembers(convs, p1);
    var p2 := (cv: Conversation) => f.start.Some? && cv.createdAt >= f.start.value;
    var s2 := if f.start.Some? then Filter(s1, p2) else s1;
    FilterMembers(s1, p2);
    var p3 := (cv: Conversation) => f.end.Some? && cv.createdAt <= f.end.value;
    var s3 := if f.end.Some? then Filter(s2, p3) else s2;
    FilterMembers(s2, p3);
    s3
  }

  /** The conversation half of `applyFilters`: when conversations are
      included, exactly the conversations passing the text and date filters,
      sorted by last message (newest first for 'desc'); otherwise none. */
  function FilterConversations(convs: seq<Conversation>, f: SearchFilters): (r: seq<Conversation>)
    ensures !f.includeConversations ==> r == []
    ensures f.includeConversations ==> multiset(r) == multiset(ConversationStages(convs, f))
    ensures forall cv :: cv in r <==>
              f.includeConversations && cv in convs
              && (IsBlank(f.query) || ConversationHistory.ConversationMatchesText(cv, Lower(f.query)))
              && (f.start.None? || cv.createdAt >= f.start.value)
              && (f.end.None? || cv.createdAt <= f.end.value)
    ensures f.order == Desc ==> forall i, j :: 0 <= i < j < |r| ==> r[i].lastMessageAt >= r[j].lastMessageAt
    ensures f.order == Asc ==> forall i, j :: 0 <= i < j < |r| ==> r[i].lastMessageAt <= r[j].lastMessageAt
  {
    if !f.includeConversations then []
    else
      var s := ConversationStages(convs, f);
      var key := (cv: Conversation) => cv.lastMessageAt as real;
      var r := if f.order == Asc then SortAsc(s, key) else SortDesc(s, key);
      PermutationSameElements(r, s);
      r
  }

  // ---------------------------------------------------------------------------
  // Selected tags and the badge
  // ---------------------------------------------------------------------------

  /** `addTag` on the selected tags. */
  function AddTag(f: SearchFilters, t: string): (r: SearchFilters)
    ensures r.(tags := f.tags) == f
    ensures t in r.tags && forall x :: x in r.tags <==> x == t || x in f.tags
  {
    f.(tags := AddIfAbsent(f.tags, t))
  }

  /** Selecting a tag twice is selecting it once. */
  lemma AddTagIdempotent(f: SearchFilters, t: string)
    ensures AddTag(AddTag(f, t), t) == AddTag(f, t)
  {
    AddIfAbsentIdempotent(f.tags, t);
  }

  /** `removeTag` on the selected tags. */
  function RemoveTag(f: SearchFilters, t: string): (r: SearchFilters)
    ensures r.(tags := f.tags) == f
    ensures t !in r.tags && IsSubsequence(r.tags, f.tags)
  {
    f.(tags := RemoveAll(f.tags, t))
  }

  /** `activeFiltersCount`: one for a non-blank query, one for a style, one
      per selected tag, one for any date bound. */
  function ActiveFiltersCount(f: SearchFilters): (n: nat)
    ensures |f.tags| <= n <= |f.tags| + 3
    ensures n == 0 <==> IsBlank(f.query) && f.style.None? && |f.tags| == 0 && f.start.None? && f.end.None?
  {
    (if !IsBlank(f.query) then 1 else 0) + (if f.style.Some? then 1 else 0) + |f.tags|
    + (if f.start.Some? || f.end.Some? then 1 else 0)
  }

  /** Typing a query where there was none adds one active filter; a change
      that keeps the query blank (or non-blank) keeps the count. */
  lemma QueryCounted(f: SearchFilters, q: string)
    ensures IsBlank(f.query) && !IsBlank(q) ==> ActiveFiltersCount(f.(query := q)) == ActiveFiltersCount(f) + 1
    ensures IsBlank(f.query) == IsBlank(q) ==> ActiveFiltersCount(f.(query := q)) == ActiveFiltersCount(f)
  {
  }

  /** Choosing a style where there was none adds one active filter; going
      back to "all" removes it. */
  lemma StyleCounted(f: SearchFilters, st: Style)
    ensures f.style.None? ==> ActiveFiltersCount(f.(style := Some(st))) == ActiveFiltersCount(f) + 1
    ensures f.style.Some? ==> ActiveFiltersCount(f.(style := None)) + 1 == ActiveFiltersCount(f)
  {
  }

  /** The first date bound adds one active filter; a second bound adds none. */
  lemma DateBoundCounted(f: SearchFilters, d: int)
    ensures f.start.None? && f.end.None? ==>
              ActiveFiltersCount(f.(start := Some(d))) == ActiveFiltersCount(f) + 1
              && ActiveFiltersCount(f.(end := Some(d))) == ActiveFiltersCount(f) + 1
    ensures f.start.Some? ==> ActiveFiltersCount(f.(end := Some(d))) == ActiveFiltersCount(f)
    ensures f.end.Some? ==> ActiveFiltersCount(f.(start := Some(d))) == ActiveFiltersCount(f)
  {
  }

  /** Selecting a new tag adds one active filter; re-selecting one adds none. */
  lemma AddTagCounted(f: SearchFilters, t: string)
    ensures t !in f.tags ==> ActiveFiltersCount(AddTag(f, t)) == ActiveFiltersCount(f) + 1
    ensures t in f.tags ==> ActiveFiltersCount(AddTag(f, t)) == ActiveFiltersCount(f)
  {
  }

  /** Removing a tag subtracts one active filter per copy of it: exactly one
      for a tag selected once, none for a tag not selected. */
  lemma RemoveTagCounted(f: SearchFilters, t: string)
    ensures ActiveFiltersCount(RemoveTag(f, t)) + multiset(f.tags)[t] == ActiveFiltersCount(f)
  {
    RemoveAllCount(f.tags, t);
  }

  /** The default filters count as none active. */
  lemma DefaultFiltersInactive()
    ensures ActiveFiltersCount(DefaultFilters) == 0
  {
    assert Trim("") == "";
  }
}
