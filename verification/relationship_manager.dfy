/** The relationship screen (`src/components/RelationshipManager.tsx`): a
    record per character created on first sight, the activity rule that
    moves the scores after recent messages, the closeness labels and the
    ranked list. Scores are reals; `now` is a parameter in milliseconds. */
module RelationshipManager {
  import opened Wrappers
  import opened Seqs
  import opened Types
  import opened TimeFormat

  // ---------------------------------------------------------------------------
  // Initialisation
  // ---------------------------------------------------------------------------

  /** Some record belongs to the character with this id. */
  predicate Known(rels: seq<RelationshipStatus>, id: string) {
    exists i :: 0 <= i < |rels| && rels[i].characterId == id
  }

  /** The record of a character seen for the first time: middling level and
      trust, a neutral mood, more romance for romantic characters and more
      friendship for friendly ones. */
  function InitialStatus(c: Character, now: int): (r: RelationshipStatus)
    ensures ScoresInRange(r) && r.characterId == c.id && r.mood == Neutral
    ensures r.romance == (if c.conversationStyle == Romantic then 60.0 else 30.0)
    ensures r.friendship == (if c.conversationStyle == Friendly then 70.0 else 40.0)
  {
    RelationshipStatus(c.id, 50.0, Neutral, 50.0,
                       if c.conversationStyle == Romantic then 60.0 else 30.0,
                       if c.conversationStyle == Friendly then 70.0 else 40.0,
                       now, [])
  }

  function IsNew(rels: seq<RelationshipStatus>): Character -> bool {
    (c: Character) => !Known(rels, c.id)
  }

  function InitialStatuses(cs: seq<Character>, now: int): (r: seq<RelationshipStatus>)
    ensures |r| == |cs|
    ensures forall i :: 0 <= i < |cs| ==> r[i] == InitialStatus(cs[i], now)
  {
    seq(|cs|, i requires 0 <= i < |cs| => InitialStatus(cs[i], now))
  }

  /** The initial records of the characters that have none yet. */
  function Added(rels: seq<RelationshipStatus>, chars: seq<Character>, now: int): seq<RelationshipStatus> {
    InitialStatuses(Filter(chars, IsNew(rels)), now)
  }

  /** The first effect: the existing records stay as they are and come first;
      every character gets a record; each added record is the initial record
      of a character that had none. */
  function Initialise(rels: seq<RelationshipStatus>, chars: seq<Character>, now: int): (r: seq<RelationshipStatus>)
    ensures |r| >= |rels| && r[..|rels|] == rels
    ensures forall c :: c in chars ==> Known(r, c.id)
    ensures forall i :: |rels| <= i < |r| ==>
              exists c :: c in chars && !Known(rels, c.id) && r[i] == InitialStatus(c, now)
    ensures (forall c :: c in chars ==> Known(rels, c.id)) ==> r == rels
  {
    InitialiseCoversAll(rels, chars, now);
    InitialiseAddsNewcomers(rels, chars, now);
    InitialiseNothingNew(rels, chars, now);
    rels + Added(rels, chars, now)
  }

  /** After initialisation every character has a record. */
  lemma InitialiseCoversAll(rels: seq<RelationshipStatus>, chars: seq<Character>, now: int)
    ensures forall c :: c in chars ==> Known(rels + Added(rels, chars, now), c.id)
  {
    var newcomers := Filter(chars, IsNew(rels));
    var r := rels + Added(rels, chars, now);
    forall c | c in chars
      ensures Known(r, c.id)
    {
      if !Known(rels, c.id) {
        FilterMembers(chars, IsNew(rels));
        assert c in newcomers;
        var j :| 0 <= j < |newcomers| && newcomers[j] == c;
        assert r[|rels| + j] == InitialStatus(c, now);
      } else {
        var i :| 0 <= i < |rels| && rels[i].characterId == c.id;
        assert r[i] == rels[i];
      }
    }
  }

  /** Every added record is the initial record of a character that had none. */
  lemma InitialiseAddsNewcomers(rels: seq<RelationshipStatus>, chars: seq<Character>, now: int)
    ensures var r := rels + Added(rels, chars, now);
            forall i :: |rels| <= i < |r| ==>
              exists c :: c in chars && !Known(rels, c.id) && r[i] == InitialStatus(c, now)
  {
    var newcomers := Filter(chars, IsNew(rels));
    var r := rels + Added(rels, chars, now);
    FilterMembers(chars, IsNew(rels));
    forall i | |rels| <= i < |r|
      ensures exists c :: c in chars && !Known(rels, c.id) && r[i] == InitialStatus(c, now)
    {
      var c := newcomers[i - |rels|];
      assert c in newcomers;
      assert r[i] == InitialStatus(c, now);
    }
  }

  /** When every character already has a record, nothing is added. */
  lemma InitialiseNothingNew(rels: seq<RelationshipStatus>, chars: seq<Character>, now: int)
    ensures (forall c :: c in chars ==> Known(rels, c.id)) ==> rels + Added(rels, chars, now) == rels
  {
    if forall c :: c in chars ==> Known(rels, c.id) {
      assert forall i :: 0 <= i < |chars| ==> chars[i] in chars;
      FilterDropsAll(chars, IsNew(rels));
    }
  }

  /** Initialisation keeps every score within [0, 100]. */
  lemma InitialiseKeepsRange(rels: seq<RelationshipStatus>, chars: seq<Character>, now: int)
    requires forall i :: 0 <= i < |rels| ==> ScoresInRange(rels[i])
    ensures var r := Initialise(rels, chars, now);
            forall i :: 0 <= i < |r| ==> ScoresInRange(r[i])
  {
    var r := Initialise(rels, chars, now);
    forall i | 0 <= i < |r|
      ensures ScoresInRange(r[i])
    {
      if i < |rels| {
        assert r[i] == r[..|rels|][i];
      } else {
        var c :| c in chars && !Known(rels, c.id) && r[i] == InitialStatus(c, now);
      }
    }
  }

  // ---------------------------------------------------------------------------
  // The activity rule
  // ---------------------------------------------------------------------------

  /** `Math.max(0, Math.min(100, x))` */
  function Clamp(x: real): (r: real)
    ensures InPercentRange(r)
    ensures InPercentRange(x) ==> r == x
    ensures x < 0.0 ==> r == 0.0
    ensures x > 100.0 ==> r == 100.0
  {
    if x < 0.0 then 0.0 else if x > 100.0 then 100.0 else x
  }

  /** `interactionBoost`: two points per recent message, at most ten. */
  function Boost(n: nat): (b: real)
    ensures 0.0 <= b <= 10.0
    ensures n > 0 ==> b >= 2.0
    ensures b == 10.0 || b == 2.0 * n as real
  {
    if 2 * n < 10 then (2 * n) as real else 10.0
  }

  /** The mood after more than five recent messages. */
  function BusyMood(s: Style): Mood {
    match s
    case Romantic => Loving
    case Friendly => Happy
    case Playful => MoodPlayful
    case _ => Excited
  }

  /** A message of this character within the last day. */
  function IsRecentFor(id: string, now: int): Message -> bool {
    (m: Message) => m.characterId == id && m.timestamp > now - Day
  }

  function RecentCount(messages: seq<Message>, id: string, now: int): nat {
    |Filter(messages, IsRecentFor(id, now))|
  }

  /** `after` is `before + delta` held within [0, 100]: the sum itself when
      it lies in range, otherwise the bound it passed. */
  predicate MovedBy(after: real, before: real, delta: real) {
    var sum := before + delta;
    (0.0 <= sum <= 100.0 ==> after == sum)
    && (sum > 100.0 ==> after == 100.0)
    && (sum < 0.0 ==> after == 0.0)
  }

  /** A score moved by `delta` and held within [0, 100]. */
  function Nudge(score: real, delta: real): (r: real)
    ensures MovedBy(r, score, delta) && InPercentRange(r)
    ensures InPercentRange(score) && delta >= 0.0 ==> r >= score
    ensures InPercentRange(score) && r < score ==> delta < 0.0
  {
    Clamp(score + delta)
  }

  /** The update of one record given its character (if any) and the number
      `n` of that character's messages in the last day. Without a character or
      without recent messages the record is untouched. Otherwise the level
      gains the boost (less 5 when the last interaction is more than seven
      days old), trust half the boost, friendship 0.8 of it, romance the
      boost but only for romantic characters; every changed score is clamped
      to [0, 100]; the mood changes only after more than five messages; the
      interaction time becomes `now`. */
  function UpdateStatus(rel: RelationshipStatus, c: Option<Character>, n: nat, now: int): (r: RelationshipStatus)
    ensures c.None? || n == 0 ==> r == rel
    ensures r.characterId == rel.characterId && r.importantEvents == rel.importantEvents
    ensures c.Some? && n > 0 ==>
              r.lastInteraction == now
              && InPercentRange(r.level) && InPercentRange(r.trust) && InPercentRange(r.friendship)
              && (c.value.conversationStyle == Romantic ==> InPercentRange(r.romance))
              && (c.value.conversationStyle != Romantic ==> r.romance == rel.romance)
              && (n > 5 ==> r.mood == BusyMood(c.value.conversationStyle))
              && (n <= 5 ==> r.mood == rel.mood)
    ensures c.Some? && n > 0 ==>
              MovedBy(r.trust, rel.trust, Boost(n) * 0.5) && MovedBy(r.friendship, rel.friendship, Boost(n) * 0.8)
    ensures c.Some? && n > 0 && c.value.conversationStyle == Romantic ==> MovedBy(r.romance, rel.romance, Boost(n))
    ensures c.Some? && n > 0 && now - rel.lastInteraction <= 7 * Day ==> MovedBy(r.level, rel.level, Boost(n))
    ensures c.Some? && n > 0 && now - rel.lastInteraction > 7 * Day ==> MovedBy(r.level, rel.level, Boost(n) - 5.0)
    ensures c.Some? && n > 0 && InPercentRange(rel.trust) ==> r.trust >= rel.trust
    ensures c.Some? && n > 0 && InPercentRange(rel.friendship) ==> r.friendship >= rel.friendship
    ensures c.Some? && n > 0 && InPercentRange(rel.level) && r.level < rel.level ==>
              now - rel.lastInteraction > 7 * Day
    ensures ScoresInRange(rel) ==> ScoresInRange(r)
  {
    if c.None? || n == 0 then rel
    else
      var boost := Boost(n);
      var decay := if now - rel.lastInteraction > 7 * Day then -5.0 else 0.0;
      var style := c.value.conversationStyle;
      var level := Nudge(rel.level, boost + decay);
      var trust := Nudge(rel.trust, boost * 0.5);
      var romance := if style == Romantic then Nudge(rel.romance, boost) else rel.romance;
      var friendship := Nudge(rel.friendship, boost * 0.8);
      var mood := if n > 5 then BusyMood(style) else rel.mood;
      RelationshipStatus(rel.characterId, level, mood, trust, romance, friendship, now, rel.importantEvents)
  }

  /** The character a record belongs to, if it still exists. */
  function CharacterOf(chars: seq<Character>, id: string): Option<Character> {
    Find(chars, (c: Character) => c.id == id)
  }

  function UpdateOne(rel: RelationshipStatus, chars: seq<Character>, messages: seq<Message>, now: int): RelationshipStatus {
    UpdateStatus(rel, CharacterOf(chars, rel.characterId), RecentCount(messages, rel.characterId, now), now)
  }

  /** The second effect over all records: one result per record, in order;
      the scores stay within [0, 100]; a record whose character is gone or
      who has no message in the last day is untouched. */
  function UpdateAll(rels: seq<RelationshipStatus>, chars: seq<Character>, messages: seq<Message>, now: int): (r: seq<RelationshipStatus>)
    ensures |r| == |rels|
    ensures forall i :: 0 <= i < |rels| ==> r[i].characterId == rels[i].characterId
    ensures forall i :: 0 <= i < |rels| && ScoresInRange(rels[i]) ==> ScoresInRange(r[i])
    ensures forall i :: 0 <= i < |rels| && (forall k :: 0 <= k < |chars| ==> chars[k].id != rels[i].characterId) ==>
              r[i] == rels[i]
    ensures forall i :: 0 <= i < |rels| && (forall m :: m in messages ==> !IsRecentFor(rels[i].characterId, now)(m)) ==>
              r[i] == rels[i]
  {
    QuietCharactersUntouched(rels, chars, messages, now);
    seq(|rels|, i requires 0 <= i < |rels| => UpdateOne(rels[i], chars, messages, now))
  }

  lemma QuietCharactersUntouched(rels: seq<RelationshipStatus>, chars: seq<Character>, messages: seq<Message>, now: int)
    ensures forall i :: 0 <= i < |rels| && (forall m :: m in messages ==> !IsRecentFor(rels[i].characterId, now)(m)) ==>
              UpdateOne(rels[i], chars, messages, now) == rels[i]
  {
    forall i | 0 <= i < |rels| && (forall m :: m in messages ==> !IsRecentFor(rels[i].characterId, now)(m))
      ensures UpdateOne(rels[i], chars, messages, now) == rels[i]
    {
      FilterDropsAll(messages, IsRecentFor(rels[i].characterId, now));
    }
  }

  /** As written, the seven-day decay needs recent activity: a record with
      no message in the last day never decays, while one message after a
      week's silence lowers the level by three. */
  lemma MessageAfterSilenceLowersLevel(rel: RelationshipStatus, c: Character, now: int)
    requires rel.level == 50.0 && now - rel.lastInteraction > 7 * Day
    ensures UpdateStatus(rel, Some(c), 1, now).level == 47.0
    ensures UpdateStatus(rel, Some(c), 0, now).level == 50.0
  {
  }

  // ---------------------------------------------------------------------------
  // Labels and the ranked list
  // ---------------------------------------------------------------------------

  /** The six closeness labels of `getRelationshipLevel`, closest first. */
  datatype Closeness = Inseparable | VeryClose | GoodFriends | Acquaintances | Distant | Strangers

  function ClosenessOf(level: real): (k: Closeness)
    ensures k == Inseparable <==> level >= 90.0
    ensures k == Strangers <==> level < 20.0
  {
    if level >= 90.0 then Inseparable
    else if level >= 75.0 then VeryClose
    else if level >= 60.0 then GoodFriends
    else if level >= 40.0 then Acquaintances
    else if level >= 20.0 then Distant
    else Strangers
  }

  /** The lowest level that earns each label. */
  function Threshold(k: Closeness): real {
    match k
    case Inseparable => 90.0
    case VeryClose => 75.0
    case GoodFriends => 60.0
    case Acquaintances => 40.0
    case Distant => 20.0
    case Strangers => -1.0
  }

  /** A level gets the closest label whose threshold it reaches. */
  lemma ClosenessIsHighestReached(level: real)
    requires level >= 0.0
    ensures level >= Threshold(ClosenessOf(level))
    ensures forall k :: Threshold(k) > Threshold(ClosenessOf(level)) ==> level < Threshold(k)
  {
  }

  /** The label text shown for a closeness level. */
  function Label(k: Closeness): string {
    match k
    case Inseparable => "Inseparáveis"
    case VeryClose => "Muito Próximos"
    case GoodFriends => "Bons Amigos"
    case Acquaintances => "Conhecidos"
    case Distant => "Distantes"
    case Strangers => "Estranhos"
  }

  /** Each closeness level has its own label text. */
  lemma LabelsDistinct(a: Closeness, b: Closeness)
    ensures Label(a) == Label(b) <==> a == b
  {
  }

  /** A record with its character, as listed. */
  datatype Row = Row(status: RelationshipStatus, character: Character)

  /** Some character has this id. */
  predicate HasCharacter(chars: seq<Character>, id: string) {
    exists k :: 0 <= k < |chars| && chars[k].id == id
  }

  function HasCharacterFn(chars: seq<Character>): RelationshipStatus -> bool {
    (rel: RelationshipStatus) => HasCharacter(chars, rel.characterId)
  }

  /** `.filter(rel => rel.character)`: the records whose character exists. */
  function Listed(rels: seq<RelationshipStatus>, chars: seq<Character>): seq<RelationshipStatus> {
    Filter(rels, HasCharacterFn(chars))
  }

  /** A row lists a record together with its own character. */
  predicate Paired(row: Row, chars: seq<Character>) {
    row.character in chars && row.character.id == row.status.characterId
  }

  /** The listed records, each paired with its character, in record order. */
  function Rows(rels: seq<RelationshipStatus>, chars: seq<Character>): (rows: seq<Row>)
    ensures |rows| == |Listed(rels, chars)|
    ensures forall i :: 0 <= i < |rows| ==> rows[i].status == Listed(rels, chars)[i] && Paired(rows[i], chars)
  {
    var l := Listed(rels, chars);
    assert forall i :: 0 <= i < |l| ==> HasCharacter(chars, l[i].characterId);
    seq(|l|, i requires 0 <= i < |l| => Row(l[i], CharacterOf(chars, l[i].characterId).value))
  }

  function LevelKey(row: Row): real {
    row.status.level
  }

  /** `sortedRelationships`: the records with an existing character, each
      with that character, highest level first. */
  function SortedRelationships(rels: seq<RelationshipStatus>, chars: seq<Character>): (r: seq<Row>)
    ensures multiset(r) == multiset(Rows(rels, chars))
    ensures forall i :: 0 <= i < |r| ==>
              r[i].status in rels && HasCharacter(chars, r[i].status.characterId) && Paired(r[i], chars)
    ensures forall rel :: rel in rels && HasCharacter(chars, rel.characterId) ==>
              exists i :: 0 <= i < |r| && r[i].status == rel
    ensures forall i, j :: 0 <= i < j < |r| ==> r[i].status.level >= r[j].status.level
  {
    SortedRelationshipsFacts(rels, chars);
    SortDesc(Rows(rels, chars), LevelKey)
  }

  lemma SortedRelationshipsFacts(rels: seq<RelationshipStatus>, chars: seq<Character>)
    ensures var r := SortDesc(Rows(rels, chars), LevelKey);
            (forall i :: 0 <= i < |r| ==>
               r[i].status in rels && HasCharacter(chars, r[i].status.characterId) && Paired(r[i], chars))
            && (forall rel :: rel in rels && HasCharacter(chars, rel.characterId) ==>
                  exists i :: 0 <= i < |r| && r[i].status == rel)
  {
    SortedRowsSound(rels, chars);
    SortedRowsComplete(rels, chars);
  }

  /** Every sorted row is a listed record with its own character. */
  lemma SortedRowsSound(rels: seq<RelationshipStatus>, chars: seq<Character>)
    ensures var r := SortDesc(Rows(rels, chars), LevelKey);
            forall i :: 0 <= i < |r| ==>
              r[i].status in rels && HasCharacter(chars, r[i].status.characterId) && Paired(r[i], chars)
  {
    var rows := Rows(rels, chars);
    var l := Listed(rels, chars);
    var r := SortDesc(rows, LevelKey);
    PermutationSameElements(r, rows);
    FilterMembers(rels, HasCharacterFn(chars));
    forall i | 0 <= i < |r|
      ensures r[i].status in rels && HasCharacter(chars, r[i].status.characterId) && Paired(r[i], chars)
    {
      assert r[i] in rows;
      var j :| 0 <= j < |rows| && rows[j] == r[i];
      assert rows[j].status == l[j] && l[j] in l;
    }
  }

  /** Every record with an existing character has a sorted row. */
  lemma SortedRowsComplete(rels: seq<RelationshipStatus>, chars: seq<Character>)
    ensures var r := SortDesc(Rows(rels, chars), LevelKey);
            forall rel :: rel in rels && HasCharacter(chars, rel.characterId) ==>
              exists i :: 0 <= i < |r| && r[i].status == rel
  {
    var rows := Rows(rels, chars);
    var l := Listed(rels, chars);
    var r := SortDesc(rows, LevelKey);
    forall rel | rel in rels && HasCharacter(chars, rel.characterId)
      ensures exists i :: 0 <= i < |r| && r[i].status == rel
    {
      assert rel in l by { FilterMembers(rels, HasCharacterFn(chars)); }
      var j :| 0 <= j < |l| && l[j] == rel;
      assert rows[j] in r by { PermutationSameElements(r, rows); }
      var i :| 0 <= i < |r| && r[i] == rows[j];
    }
  }
}
