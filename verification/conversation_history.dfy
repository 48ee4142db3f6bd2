/** The conversation history screen (`src/components/ConversationHistory.tsx`):
    the text and kind filters with the newest-first order, the date label and
    the avatar lookup. `now` is a parameter in milliseconds. */
module ConversationHistory {
  import opened Wrappers
  import opened Text
  import opened Seqs
  import opened Types
  import opened TimeFormat

  /** The "show" selector: all, favourites only, or the last thirty days. */
  datatype Kind = AllKinds | Favorites | Recent

  const RecentWindow: int := 30 * Day

  /** The lower-cased query occurs in the title, the character's name or the
      text of some message. */
  predicate ConversationMatchesText(cv: Conversation, q: string) {
    Contains(Lower(cv.title), q) || Contains(Lower(cv.characterName), q)
    || exists i :: 0 <= i < |cv.messages| && Contains(Lower(cv.messages[i].content), q)
  }

  /** The text filter applies only to a non-blank query. */
  predicate MatchesQuery(cv: Conversation, query: string) {
    IsBlank(query) || ConversationMatchesText(cv, Lower(query))
  }

  predicate MatchesKind(cv: Conversation, kind: Kind, now: int) {
    match kind
    case AllKinds => true
    case Favorites => cv.isFavorite
    case Recent => cv.lastMessageAt >= now - RecentWindow
  }

  function QueryFilter(query: string): Conversation -> bool {
    cv => MatchesQuery(cv, query)
  }

  function KindFilter(kind: Kind, now: int): Conversation -> bool {
    cv => MatchesKind(cv, kind, now)
  }

  function LastMessageKey(cv: Conversation): real {
    cv.lastMessageAt as real
  }

  /** `filteredConversations`: the conversations that match the query and the
      kind, each at most as often as in the input, newest first. */
  function FilterConversations(convs: seq<Conversation>, query: string, kind: Kind, now: int): (r: seq<Conversation>)
    ensures multiset(r) <= multiset(convs)
    ensures forall cv :: cv in r <==> cv in convs && MatchesQuery(cv, query) && MatchesKind(cv, kind, now)
    ensures forall i, j :: 0 <= i < j < |r| ==> r[i].lastMessageAt >= r[j].lastMessageAt
  {
    var matching := Matching(convs, query, kind, now);
    var r := SortDesc(matching, LastMessageKey);
    PermutationSameElements(r, matching);
    r
  }

  /** The screen's list is a reordering of one filter by both conditions:
      every match appears exactly as often as in the input. */
  lemma FilterConversationsIsOneFilter(convs: seq<Conversation>, query: string, kind: Kind, now: int)
    ensures multiset(FilterConversations(convs, query, kind, now)) == multiset(Filter(convs, MatchFilter(query, kind, now)))
  {
    MatchingIsOneFilter(convs, query, kind, now);
  }

  /** The text filter, then the kind filter, before sorting. */
  function Matching(convs: seq<Conversation>, query: string, kind: Kind, now: int): (r: seq<Conversation>)
    ensures multiset(r) <= multiset(convs)
    ensures forall cv :: cv in r <==> cv in convs && MatchesQuery(cv, query) && MatchesKind(cv, kind, now)
  {
    var byText := FilterIf(convs, !IsBlank(query), QueryFilter(query));
    FilterIf(byText, kind != AllKinds, KindFilter(kind, now))
  }

  /** Matching both the query and the kind, as one filter callback. */
  function MatchFilter(query: string, kind: Kind, now: int): Conversation -> bool {
    cv => MatchesQuery(cv, query) && MatchesKind(cv, kind, now)
  }

  /** The two stages together keep exactly what one filter by both
      conditions keeps, each match as often as in the input, in order. */
  lemma MatchingIsOneFilter(convs: seq<Conversation>, query: string, kind: Kind, now: int)
    ensures Matching(convs, query, kind, now) == Filter(convs, MatchFilter(query, kind, now))
  {
    var qf, kf, mf := QueryFilter(query), KindFilter(kind, now), MatchFilter(query, kind, now);
    if !IsBlank(query) && kind != AllKinds {
      FilterFilter(convs, qf, kf, mf);
    } else if !IsBlank(query) {
      FilterExtensional(convs, qf, mf);
    } else if kind != AllKinds {
      FilterExtensional(convs, kf, mf);
    } else {
      FilterKeepsAll(convs, mf);
    }
  }

  /** A blank query and the "all" selector only reorder the list. */
  lemma NoFilterKeepsAll(convs: seq<Conversation>, query: string, now: int)
    requires IsBlank(query)
    ensures multiset(FilterConversations(convs, query, AllKinds, now)) == multiset(convs)
  {
  }

  /** `formatDate` of a conversation's last message. */
  function FormatDate(lastMessageAt: int, now: int, dateText: string): (s: string)
    ensures now - lastMessageAt < Hour ==> s == "Agora mesmo"
    ensures 7 * Day <= now - lastMessageAt ==> s == dateText
  {
    FormatElapsed(now - lastMessageAt, dateText)
  }

  /** `i` is the first character with the id. */
  predicate FirstWithId(chars: seq<Character>, id: string, i: int) {
    0 <= i < |chars| && chars[i].id == id && forall j :: 0 <= j < i ==> chars[j].id != id
  }

  function HasId(id: string): Character -> bool {
    (c: Character) => c.id == id
  }

  /** `characters.find(c => c.id === id)`: the first character with the id,
      none when no character has it. */
  lemma FindById(chars: seq<Character>, id: string)
    ensures (forall i :: 0 <= i < |chars| ==> chars[i].id != id) ==> Find(chars, HasId(id)).None?
    ensures forall i :: FirstWithId(chars, id, i) ==> Find(chars, HasId(id)) == Some(chars[i])
    ensures Find(chars, HasId(id)).Some? ==>
              exists i :: FirstWithId(chars, id, i) && Find(chars, HasId(id)).value == chars[i]
  {
    assert forall j :: 0 <= j < |chars| ==> HasId(id)(chars[j]) == (chars[j].id == id);
    forall i | FirstWithId(chars, id, i) {
      FindIsFirst(chars, HasId(id), i);
    }
  }

  /** `getCharacterAvatar`: the avatar of the first character with the id,
      or "" when there is none or it has no (or an empty) avatar. */
  function CharacterAvatar(chars: seq<Character>, id: string): (r: string)
    ensures (forall i :: 0 <= i < |chars| ==> chars[i].id != id) ==> r == ""
    ensures forall i :: FirstWithId(chars, id, i) ==> r == chars[i].avatar.GetOr("")
    ensures r != "" ==> exists i :: FirstWithId(chars, id, i) && chars[i].avatar == Some(r)
  {
    FindById(chars, id);
    match Find(chars, HasId(id))
    case None => ""
    case Some(c) =>
      var r := c.avatar.GetOr("");
      assert r != "" ==> exists i :: FirstWithId(chars, id, i) && chars[i].avatar == Some(r) by {
        if r != "" {
          var i :| FirstWithId(chars, id, i) && c == chars[i];
          assert chars[i].avatar == Some(r);
        }
      }
      r
  }
}
