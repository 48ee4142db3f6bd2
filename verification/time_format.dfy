/** The "time ago" label shared by the character card (`formatLastChat`) and
    the conversation history (`formatDate`): whole hours under a day, whole
    days under a week, the locale date after that. Times are integer
    milliseconds; the locale date text is supplied by the caller. */
module TimeFormat {
  import opened Wrappers
  import opened Text

  const Hour: int := 3600000
  const Day: int := 86400000

  /** Which label a time difference gets. */
  datatype Elapsed = JustNow | HoursAgo(hours: int) | DaysAgo(days: int) | OnDate

  /** The bucket of a difference `diff` (now minus then). The code computes
      floor(diff / hour) and then floor(hours / 24); the contract states the
      buckets directly in milliseconds. A difference in the future counts as
      "just now". */
  function Bucket(diff: int): (e: Elapsed)
    ensures e == JustNow <==> diff < Hour
    ensures e.HoursAgo? <==> Hour <= diff < Day
    ensures e.DaysAgo? <==> Day <= diff < 7 * Day
    ensures e == OnDate <==> 7 * Day <= diff
    ensures e.HoursAgo? ==> 1 <= e.hours < 24 && e.hours * Hour <= diff < (e.hours + 1) * Hour
    ensures e.DaysAgo? ==> 1 <= e.days < 7 && e.days * Day <= diff < (e.days + 1) * Day
  {
    var hours := diff / Hour;
    var days := hours / 24;
    if hours < 1 then JustNow
    else if hours < 24 then HoursAgo(hours)
    else if days < 7 then DaysAgo(days)
    else OnDate
  }

  function Render(e: Elapsed, dateText: string): string {
    match e
    case JustNow => "Agora mesmo"
    case HoursAgo(h) => IntToString(h) + "h atrás"
    case DaysAgo(d) => IntToString(d) + "d atrás"
    case OnDate => dateText
  }

  /** The label for a difference; `dateText` is the locale date of the
      earlier time. */
  function FormatElapsed(diff: int, dateText: string): (s: string)
    ensures diff < Hour ==> s == "Agora mesmo"
    ensures 7 * Day <= diff ==> s == dateText
    ensures Hour <= diff < Day ==> exists h :: 1 <= h < 24 && h * Hour <= diff < (h + 1) * Hour && s == IntToString(h) + "h atrás"
    ensures Day <= diff < 7 * Day ==> exists d :: 1 <= d < 7 && d * Day <= diff < (d + 1) * Day && s == IntToString(d) + "d atrás"
  {
    Render(Bucket(diff), dateText)
  }

  /** The number shown in an hours or days label reads back as that number. */
  lemma CountReadsBack(n: nat, unit: char)
    requires unit == 'h' || unit == 'd'
    ensures ParseInt(NatToString(n) + [unit] + " atrás") == Some(n)
  {
    var rest := [unit] + " atrás";
    assert NatToString(n) + [unit] + " atrás" == NatToString(n) + rest;
    ParseIntOfDigitsThen(n, rest);
  }

  /** `parseInt` of the digits of `n` followed by text that starts with
      neither a digit nor a hexadecimal marker reads `n`. */
  lemma ParseIntOfDigitsThen(n: nat, rest: string)
    requires |rest| > 0 && !IsDigit(rest[0]) && rest[0] != 'x' && rest[0] != 'X'
    ensures ParseInt(NatToString(n) + rest) == Some(n)
  {
    var s := NatToString(n) + rest;
    assert s[0] == NatToString(n)[0];
    ParseUnsignedOfDigitsThen(n, rest);
    ParseIntOfUnsigned(s, n);
  }

  lemma ParseUnsignedOfDigitsThen(n: nat, rest: string)
    requires |rest| > 0 && !IsDigit(rest[0]) && rest[0] != 'x' && rest[0] != 'X'
    ensures ParseUnsigned(NatToString(n) + rest) == Some(n)
  {
    var d := NatToString(n);
    var s := d + rest;
    assert s[..|d|] == d && s[|d|] == rest[0];
    assert !(|s| >= 2 && s[0] == '0' && (s[1] == 'x' || s[1] == 'X'));
    DigitRunAll(d);
    DigitRunPrefix(s, d);
    assert s[..DigitRun(s, 10)] == d;
    NatToStringValue(n);
  }

  /** The digit run of a string that starts with a digit string followed by a
      non-digit is exactly that digit string. */
  lemma {:induction false} DigitRunPrefix(s: string, digits: string)
    requires |digits| < |s| && s[..|digits|] == digits
    requires forall k :: 0 <= k < |digits| ==> IsDigit(digits[k])
    requires !IsDigit(s[|digits|])
    ensures DigitRun(s, 10) == |digits|
  {
    if |digits| > 0 {
      assert s[1..][..|digits| - 1] == digits[1..];
      DigitRunPrefix(s[1..], digits[1..]);
    }
  }
}
