/** The usage statistics screen (`src/components/StatsPanel.tsx`): totals,
    per-character usage ranked by messages, rounded averages, the longest
    conversation, the first and last activity dates, the recent-activity
    count, the number of days in use and the progress colours. `now` is a
    parameter in milliseconds. */
module StatsPanel {
  import opened Wrappers
  import opened Seqs
  import opened Types
  import TimeFormat

  // ---------------------------------------------------------------------------
  // Arithmetic of the panel
  // ---------------------------------------------------------------------------

  /** `Math.round(a / b)` for a positive divisor: the nearest integer, halves
      rounded up. */
  function RoundDiv(a: int, b: int): (r: int)
    requires b > 0
    ensures (2 * r - 1) * b <= 2 * a < (2 * r + 1) * b
    ensures a >= 0 ==> r >= 0
  {
    (2 * a + b) / (2 * b)
  }

  /** Rounding a quotient bounded by `m` stays within `m`. */
  lemma RoundDivAtMost(a: int, b: int, m: int)
    requires b > 0 && a <= b * m
    ensures RoundDiv(a, b) <= m
  {
    var r := RoundDiv(a, b);
    assert (2 * m + 1) * b == 2 * (b * m) + b;
    MulLessCancel(2 * r - 1, 2 * m + 1, b);
  }

  lemma MulLessCancel(x: int, y: int, b: int)
    requires b > 0 && x * b < y * b
    ensures x < y
  {
    MulSign(x - y, b);
    assert (x - y) * b == x * b - y * b;
  }

  lemma MulSign(p: int, b: int)
    requires b > 0
    ensures p >= 0 ==> p * b >= 0
  {
  }

  /** `Math.max(1, Math.ceil(diff / day))`. */
  function DaysBetween(diff: int): (d: int)
    ensures d >= 1
    ensures diff <= d * TimeFormat.Day
    ensures d == 1 || (d - 1) * TimeFormat.Day < diff
  {
    var ceil := -((-diff) / TimeFormat.Day);
    if ceil > 1 then ceil else 1
  }

  // ---------------------------------------------------------------------------
  // Sums over sessions
  // ---------------------------------------------------------------------------

  function SessionLength(s: ChatSession): int {
    |s.messages|
  }

  function ContentLength(m: Message): int {
    |m.content|
  }

  /** `chatSessions.flatMap(s => s.messages)` */
  function AllMessages(sessions: seq<ChatSession>): seq<Message> {
    if |sessions| == 0 then [] else sessions[0].messages + AllMessages(sessions[1..])
  }

  /** `totalMessages`: the sum of the session lengths, which is the number of
      messages over all sessions. */
  function TotalMessages(sessions: seq<ChatSession>): (n: int)
    ensures n == |AllMessages(sessions)|
    ensures forall i :: 0 <= i < |sessions| ==> |sessions[i].messages| <= n
  {
    TotalIsAllMessages(sessions);
    SumBounds(sessions, SessionLength);
    Sum(sessions, SessionLength)
  }

  lemma {:induction false} TotalIsAllMessages(sessions: seq<ChatSession>)
    ensures Sum(sessions, SessionLength) == |AllMessages(sessions)|
  {
    if |sessions| > 0 {
      TotalIsAllMessages(sessions[1..]);
      SumCons(sessions, SessionLength);
    }
  }

  // ---------------------------------------------------------------------------
  // Per-character usage
  // ---------------------------------------------------------------------------

  /** One row of `characterUsage`. */
  datatype Usage = Usage(character: Character, messageCount: int, sessionCount: int)

  function SessionsOf(sessions: seq<ChatSession>, id: string): seq<ChatSession> {
    Filter(sessions, (s: ChatSession) => s.characterId == id)
  }

  /** The usage of one character: its sessions and their messages. It never
      exceeds the overall totals. */
  function UsageOf(c: Character, sessions: seq<ChatSession>): (u: Usage)
    ensures u.character == c
    ensures 0 <= u.messageCount <= TotalMessages(sessions)
    ensures 0 <= u.sessionCount <= |sessions|
  {
    var mine := SessionsOf(sessions, c.id);
    SumFilterAtMost(sessions, (s: ChatSession) => s.characterId == c.id, SessionLength);
    SumBounds(mine, SessionLength);
    Usage(c, Sum(mine, SessionLength), |mine|)
  }

  function UsageKey(u: Usage): real {
    u.messageCount as real
  }

  function UsageRows(chars: seq<Character>, sessions: seq<ChatSession>): (rows: seq<Usage>)
    ensures |rows| == |chars|
    ensures forall i :: 0 <= i < |chars| ==> rows[i] == UsageOf(chars[i], sessions)
  {
    seq(|chars|, i requires 0 <= i < |chars| => UsageOf(chars[i], sessions))
  }

  /** `characterUsage`: one row per character, each with that character's
      own counts, ranked by message count, most used first. */
  function CharacterUsage(chars: seq<Character>, sessions: seq<ChatSession>): (r: seq<Usage>)
    ensures multiset(r) == multiset(UsageRows(chars, sessions))
    ensures |r| == |chars|
    ensures forall i :: 0 <= i < |r| ==> r[i] == UsageOf(r[i].character, sessions) && r[i].character in chars
    ensures forall c :: c in chars ==> UsageOf(c, sessions) in r
    ensures forall i, j :: 0 <= i < j < |r| ==> r[i].messageCount >= r[j].messageCount
  {
    var r := SortDesc(UsageRows(chars, sessions), UsageKey);
    UsageRowsReordered(r, chars, sessions);
    r
  }

  /** Any reordering of the usage rows holds each character's own usage, and
      every character's. */
  lemma UsageRowsReordered(r: seq<Usage>, chars: seq<Character>, sessions: seq<ChatSession>)
    requires multiset(r) == multiset(UsageRows(chars, sessions))
    ensures forall i :: 0 <= i < |r| ==> r[i] == UsageOf(r[i].character, sessions) && r[i].character in chars
    ensures forall c :: c in chars ==> UsageOf(c, sessions) in r
  {
    var rows := UsageRows(chars, sessions);
    PermutationSameElements(r, rows);
    forall i | 0 <= i < |r|
      ensures r[i] == UsageOf(r[i].character, sessions) && r[i].character in chars
    {
      assert r[i] in rows;
      var k :| 0 <= k < |rows| && rows[k] == r[i];
      assert rows[k] == UsageOf(chars[k], sessions);
    }
    forall c | c in chars
      ensures UsageOf(c, sessions) in r
    {
      var k :| 0 <= k < |chars| && chars[k] == c;
      assert rows[k] in rows;
    }
  }

  /** Ties keep their order: the rows with one message count appear in the
      ranking in the order of their characters in `chars`, because the sort
      is stable. */
  lemma CharacterUsageStable(chars: seq<Character>, sessions: seq<ChatSession>, count: int)
    ensures Filter(CharacterUsage(chars, sessions), KeyIs(UsageKey, count as real))
         == Filter(UsageRows(chars, sessions), KeyIs(UsageKey, count as real))
  {
    SortDescStable(UsageRows(chars, sessions), UsageKey, count as real);
  }

  /** `chars[i]` has the most messages, and every character before it has
      fewer. */
  predicate FirstMostUsed(chars: seq<Character>, sessions: seq<ChatSession>, i: int) {
    0 <= i < |chars|
    && (forall j :: 0 <= j < |chars| ==>
          UsageOf(chars[j], sessions).messageCount <= UsageOf(chars[i], sessions).messageCount)
    && (forall j :: 0 <= j < i ==>
          UsageOf(chars[j], sessions).messageCount < UsageOf(chars[i], sessions).messageCount)
  }

  /** The most active character is the first character in `chars` with the
      largest message count. */
  lemma LeaderIsFirstMostUsed(chars: seq<Character>, sessions: seq<ChatSession>)
    ensures |chars| > 0 ==>
              exists i :: FirstMostUsed(chars, sessions, i) && Leader(chars, sessions) == Some(chars[i])
  {
    if |chars| > 0 {
      var rows := UsageRows(chars, sessions);
      var m := CharacterUsage(chars, sessions)[0].messageCount;
      var p := KeyIs(UsageKey, m as real);
      var i0 := RankingHeadIsMaximal(chars, sessions);
      KeyIsCount(rows[i0], m);
      var found := Find(rows, p);
      var i :| 0 <= i < |rows| && rows[i] == found.value && p(rows[i])
               && forall j :: 0 <= j < i ==> !p(rows[j]);
      forall j | 0 <= j < i ensures rows[j].messageCount != m {
        KeyIsCount(rows[j], m);
      }
      KeyIsCount(rows[i], m);
      RankingHeadIsFirstTied(chars, sessions, i);
      FirstMostUsedRow(chars, sessions, i, m);
    }
  }

  /** The head of the ranking is the row of some character, and no row counts
      more messages. */
  lemma RankingHeadIsMaximal(chars: seq<Character>, sessions: seq<ChatSession>) returns (i0: int)
    requires |chars| > 0
    ensures 0 <= i0 < |chars| && UsageRows(chars, sessions)[i0] == CharacterUsage(chars, sessions)[0]
    ensures forall j :: 0 <= j < |chars| ==>
              UsageRows(chars, sessions)[j].messageCount <= CharacterUsage(chars, sessions)[0].messageCount
  {
    var rows := UsageRows(chars, sessions);
    var r := CharacterUsage(chars, sessions);
    PermutationSameElements(r, rows);
    forall j | 0 <= j < |rows| ensures rows[j].messageCount <= r[0].messageCount {
      assert rows[j] in r;
      var k :| 0 <= k < |r| && r[k] == rows[j];
    }
    assert r[0] in rows;
    i0 :| 0 <= i0 < |rows| && rows[i0] == r[0];
  }

  /** The first row whose count equals the head's is the head itself: the
      stable sort keeps the first of the tied rows in front. */
  lemma RankingHeadIsFirstTied(chars: seq<Character>, sessions: seq<ChatSession>, i: int)
    requires |chars| > 0 && 0 <= i < |chars|
    requires UsageRows(chars, sessions)[i].messageCount == CharacterUsage(chars, sessions)[0].messageCount
    requires forall j :: 0 <= j < i ==>
               UsageRows(chars, sessions)[j].messageCount != CharacterUsage(chars, sessions)[0].messageCount
    ensures CharacterUsage(chars, sessions)[0] == UsageRows(chars, sessions)[i]
  {
    var rows := UsageRows(chars, sessions);
    var r := CharacterUsage(chars, sessions);
    var m := r[0].messageCount;
    var p := KeyIs(UsageKey, m as real);
    forall j | 0 <= j < i ensures !p(rows[j]) {
      KeyIsCount(rows[j], m);
    }
    KeyIsCount(rows[i], m);
    KeyIsCount(r[0], m);
    FilterFirst(rows, p, i);
    FilterFirst(r, p, 0);
    CharacterUsageStable(chars, sessions, m);
  }

  /** A row has key `m` exactly when it counts `m` messages. */
  lemma KeyIsCount(u: Usage, m: int)
    ensures KeyIs(UsageKey, m as real)(u) <==> u.messageCount == m
  {
    assert KeyIs(UsageKey, m as real)(u) == (UsageKey(u) == m as real);
  }

  /** The first usage row with the largest count belongs to the first most
      used character. */
  lemma FirstMostUsedRow(chars: seq<Character>, sessions: seq<ChatSession>, i: int, m: int)
    requires 0 <= i < |chars| && UsageRows(chars, sessions)[i].messageCount == m
    requires forall j :: 0 <= j < |chars| ==> UsageRows(chars, sessions)[j].messageCount <= m
    requires forall j :: 0 <= j < i ==> UsageRows(chars, sessions)[j].messageCount != m
    ensures FirstMostUsed(chars, sessions, i)
  {
    var rows := UsageRows(chars, sessions);
    assert forall j :: 0 <= j < |chars| ==> rows[j] == UsageOf(chars[j], sessions);
  }

  /** `mostActiveCharacter`: the first row's character, one with the most
      messages; none without characters. */
  function MostActive(usage: seq<Usage>): (c: Option<Character>)
    requires forall i, j :: 0 <= i < j < |usage| ==> usage[i].messageCount >= usage[j].messageCount
    ensures c.None? <==> |usage| == 0
    ensures c.Some? ==>
              exists i :: 0 <= i < |usage| && usage[i].character == c.value
                          && forall j :: 0 <= j < |usage| ==> usage[j].messageCount <= usage[i].messageCount
  {
    if |usage| == 0 then None else Some(usage[0].character)
  }

  /** The width of a usage bar: its count as a percentage of the first row's
      count (or of 1 when that is 0). On a ranked list of non-negative counts
      every bar lies between 0 and 100. */
  function BarPercent(usage: seq<Usage>, i: int): (p: real)
    requires 0 <= i < |usage|
    requires forall k, j :: 0 <= k < j < |usage| ==> usage[k].messageCount >= usage[j].messageCount
    requires forall k :: 0 <= k < |usage| ==> usage[k].messageCount >= 0
    ensures 0.0 <= p <= 100.0
  {
    var top := if usage[0].messageCount != 0 then usage[0].messageCount else 1;
    assert usage[i].messageCount <= top;
    PercentOfAtMost(usage[i].messageCount, top);
    (usage[i].messageCount as real / top as real) * 100.0
  }

  /** A share of at most the whole is between 0 and 100 percent. */
  lemma PercentOfAtMost(a: int, top: int)
    requires 0 <= a <= top && top > 0
    ensures 0.0 <= (a as real / top as real) * 100.0 <= 100.0
  {
    var q := a as real / top as real;
    assert q * top as real == a as real;
    assert 0.0 <= q <= 1.0;
  }

  // ---------------------------------------------------------------------------
  // The whole panel
  // ---------------------------------------------------------------------------

  function MinCreated(sessions: seq<ChatSession>): (t: int)
    requires |sessions| > 0
    ensures exists i :: 0 <= i < |sessions| && sessions[i].createdAt == t
    ensures forall i :: 0 <= i < |sessions| ==> t <= sessions[i].createdAt
  {
    if |sessions| == 1 then sessions[0].createdAt
    else
      var rest := MinCreated(sessions[1..]);
      assert forall i :: 1 <= i < |sessions| ==> sessions[i] == sessions[1..][i - 1];
      if sessions[0].createdAt < rest then sessions[0].createdAt else rest
  }

  function MaxLastMessage(sessions: seq<ChatSession>): (t: int)
    requires |sessions| > 0
    ensures exists i :: 0 <= i < |sessions| && sessions[i].lastMessageAt == t
    ensures forall i :: 0 <= i < |sessions| ==> sessions[i].lastMessageAt <= t
  {
    if |sessions| == 1 then sessions[0].lastMessageAt
    else
      var rest := MaxLastMessage(sessions[1..]);
      assert forall i :: 1 <= i < |sessions| ==> sessions[i] == sessions[1..][i - 1];
      if sessions[0].lastMessageAt > rest then sessions[0].lastMessageAt else rest
  }

  /** The longest conversation is at most the total. */
  lemma LongestAtMostTotal(sessions: seq<ChatSession>)
    ensures MaxOrZero(sessions, SessionLength) <= TotalMessages(sessions)
  {
    var longest := MaxOrZero(sessions, SessionLength);
    var total := TotalMessages(sessions);
    if longest != 0 {
      var i :| 0 <= i < |sessions| && SessionLength(sessions[i]) == longest;
      assert |sessions[i].messages| <= total;
    } else {
      SumBounds(sessions, SessionLength);
    }
  }

  /** The rounded average conversation is at most the longest. */
  lemma AverageWithinLongest(sessions: seq<ChatSession>)
    ensures |sessions| > 0 ==>
              0 <= RoundDiv(TotalMessages(sessions), |sessions|) <= MaxOrZero(sessions, SessionLength)
  {
    if |sessions| > 0 {
      var longest := MaxOrZero(sessions, SessionLength);
      var total := TotalMessages(sessions);
      SumAtMostCountTimes(sessions, SessionLength, longest);
      assert total <= |sessions| * longest;
      RoundDivAtMost(total, |sessions|, longest);
    }
  }

  datatype Stats = Stats(
    totalCharacters: int,
    totalConversations: int,
    totalMessages: int,
    characterUsage: seq<Usage>,
    avgMessagesPerConversation: int,
    longestConversation: int,
    avgMessageLength: int,
    firstUseDate: int,
    lastActiveDate: int,
    recentActivity: int,
    mostActiveCharacter: Option<Character>,
    daysUsing: int)

  function IsRecent(now: int): Message -> bool {
    (m: Message) => m.timestamp >= now - 7 * TimeFormat.Day
  }

  /** `firstUseDate`: the earliest session start, or `now` without sessions. */
  function FirstUse(sessions: seq<ChatSession>, now: int): (t: int)
    ensures |sessions| == 0 ==> t == now
    ensures |sessions| > 0 ==> t == MinCreated(sessions)
    ensures forall i :: 0 <= i < |sessions| ==> t <= sessions[i].createdAt
  {
    if |sessions| > 0 then MinCreated(sessions) else now
  }

  /** `lastActiveDate`: the latest last message, or `now` without sessions. */
  function LastActive(sessions: seq<ChatSession>, now: int): (t: int)
    ensures |sessions| == 0 ==> t == now
    ensures |sessions| > 0 ==> t == MaxLastMessage(sessions)
    ensures forall i :: 0 <= i < |sessions| ==> sessions[i].lastMessageAt <= t
  {
    if |sessions| > 0 then MaxLastMessage(sessions) else now
  }

  /** `daysUsing`: the whole days, rounded up and at least one, from the
      first use to `now`. */
  function DaysUsing(sessions: seq<ChatSession>, now: int): (d: int)
    ensures d >= 1
    ensures d == DaysBetween(now - FirstUse(sessions, now))
  {
    DaysBetween(now - FirstUse(sessions, now))
  }

  /** `longestConversation`: the most messages in one session (0 without
      sessions), never more than the total. */
  function Longest(sessions: seq<ChatSession>): (l: int)
    ensures 0 <= l <= TotalMessages(sessions)
    ensures forall i :: 0 <= i < |sessions| ==> |sessions[i].messages| <= l
    ensures l == 0 || exists i :: 0 <= i < |sessions| && |sessions[i].messages| == l
  {
    LongestAtMostTotal(sessions);
    MaxOrZero(sessions, SessionLength)
  }

  /** `avgMessagesPerConversation`: the rounded mean session length, 0 without
      sessions; never more than the longest session. */
  function ConversationAverage(sessions: seq<ChatSession>): (a: int)
    ensures |sessions| == 0 ==> a == 0
    ensures |sessions| > 0 ==> a == RoundDiv(TotalMessages(sessions), |sessions|)
    ensures 0 <= a <= Longest(sessions)
  {
    AverageWithinLongest(sessions);
    if |sessions| > 0 then RoundDiv(TotalMessages(sessions), |sessions|) else 0
  }

  /** `avgMessageLength`: the rounded mean content length, 0 without messages. */
  function MessageLengthAverage(sessions: seq<ChatSession>): (a: int)
    ensures |AllMessages(sessions)| == 0 ==> a == 0
    ensures |AllMessages(sessions)| > 0 ==>
              a == RoundDiv(Sum(AllMessages(sessions), ContentLength), |AllMessages(sessions)|)
  {
    var all := AllMessages(sessions);
    if |all| > 0 then RoundDiv(Sum(all, ContentLength), |all|) else 0
  }

  /** `recentActivity`: the messages of the last seven days. */
  function RecentActivity(sessions: seq<ChatSession>, now: int): (n: int)
    ensures n == |Filter(AllMessages(sessions), IsRecent(now))|
    ensures 0 <= n <= TotalMessages(sessions)
  {
    |Filter(AllMessages(sessions), IsRecent(now))|
  }

  /** `mostActiveCharacter`: the character at the head of the usage ranking. */
  function Leader(chars: seq<Character>, sessions: seq<ChatSession>): (c: Option<Character>)
    ensures c.None? <==> |chars| == 0
    ensures c.Some? ==> c.value in chars
    ensures |chars| > 0 ==> c == Some(CharacterUsage(chars, sessions)[0].character)
  {
    var usage := CharacterUsage(chars, sessions);
    MostActive(usage)
  }

  /** The `stats` memo. The averages are rounded and 0 when there is nothing
      to average; the average conversation is never longer than the longest
      one; dates fall back to `now` without sessions. */
  function ComputeStats(chars: seq<Character>, sessions: seq<ChatSession>, now: int): (st: Stats)
    ensures st.totalCharacters == |chars| && st.totalConversations == |sessions|
    ensures st.totalMessages == |AllMessages(sessions)|
    ensures |sessions| == 0 ==> st.avgMessagesPerConversation == 0
    ensures |sessions| > 0 ==> st.avgMessagesPerConversation == RoundDiv(st.totalMessages, |sessions|)
    ensures 0 <= st.avgMessagesPerConversation <= st.longestConversation <= st.totalMessages
    ensures forall i :: 0 <= i < |sessions| ==> |sessions[i].messages| <= st.longestConversation
    ensures |AllMessages(sessions)| == 0 ==> st.avgMessageLength == 0
    ensures |AllMessages(sessions)| > 0 ==>
              st.avgMessageLength == RoundDiv(Sum(AllMessages(sessions), ContentLength), |AllMessages(sessions)|)
    ensures |sessions| == 0 ==> st.firstUseDate == now && st.lastActiveDate == now
    ensures forall i :: 0 <= i < |sessions| ==>
              st.firstUseDate <= sessions[i].createdAt && sessions[i].lastMessageAt <= st.lastActiveDate
    ensures 0 <= st.recentActivity <= st.totalMessages
    ensures st.daysUsing >= 1
    ensures st.mostActiveCharacter.None? <==> |chars| == 0
    ensures st.mostActiveCharacter.Some? ==> st.mostActiveCharacter.value in chars
    ensures st.characterUsage == CharacterUsage(chars, sessions)
    ensures |chars| > 0 ==> |st.characterUsage| > 0 && st.mostActiveCharacter == Some(st.characterUsage[0].character)
    ensures st.recentActivity == |Filter(AllMessages(sessions), IsRecent(now))|
    ensures |sessions| > 0 ==> st.firstUseDate == MinCreated(sessions) && st.lastActiveDate == MaxLastMessage(sessions)
    ensures st.longestConversation == Longest(sessions)
    ensures st.daysUsing == DaysUsing(sessions, now)
  {
    Stats(|chars|, |sessions|, TotalMessages(sessions), CharacterUsage(chars, sessions),
          ConversationAverage(sessions), Longest(sessions), MessageLengthAverage(sessions),
          FirstUse(sessions, now), LastActive(sessions, now), RecentActivity(sessions, now),
          Leader(chars, sessions), DaysUsing(sessions, now))
  }

  /** The days of use count from the reported first use date. */
  lemma DaysUsingFromFirstUse(chars: seq<Character>, sessions: seq<ChatSession>, now: int)
    ensures var st := ComputeStats(chars, sessions, now);
            st.daysUsing == DaysBetween(now - st.firstUseDate)
  {
  }

  // ---------------------------------------------------------------------------
  // Colours
  // ---------------------------------------------------------------------------

  lemma PercentageThreshold(value: real, max: real, t: real)
    requires max != 0.0
    ensures max > 0.0 ==> ((value / max) * 100.0 >= t <==> value * 100.0 >= t * max)
  {
    var q := value / max;
    assert q * max == value;
    if max > 0.0 {
      if q * 100.0 >= t {
        assert (q * 100.0) * max >= t * max;
      }
      if value * 100.0 >= t * max {
        assert (q * 100.0) * max >= t * max;
      }
    }
  }

  /** `getProgressColor(value, max)`: green from 70 %, yellow from 40 %, blue
      below. A zero maximum divides to +Infinity for a positive value (green)
      and to -Infinity or NaN otherwise (blue). */
  function ProgressColor(value: real, max: real): (color: string)
    ensures max > 0.0 ==> (color == "bg-green-500" <==> value * 100.0 >= 70.0 * max)
    ensures max > 0.0 ==> (color == "bg-blue-500" <==> value * 100.0 < 40.0 * max)
    ensures max == 0.0 ==> (color == "bg-green-500" <==> value > 0.0)
    ensures color in ["bg-green-500", "bg-yellow-500", "bg-blue-500"]
  {
    if max == 0.0 then (if value > 0.0 then "bg-green-500" else "bg-blue-500")
    else
      var percentage := (value / max) * 100.0;
      PercentageThreshold(value, max, 70.0);
      PercentageThreshold(value, max, 40.0);
      assert "bg-yellow-500"[3] != "bg-green-500"[3] && "bg-yellow-500"[3] != "bg-blue-500"[3];
      assert "bg-blue-500"[3] != "bg-green-500"[3];
      if percentage >= 70.0 then "bg-green-500"
      else if percentage >= 40.0 then "bg-yellow-500"
      else "bg-blue-500"
  }
}
