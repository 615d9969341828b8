/**
 * Relative-time labels ("just now", "5m ago", "3h ago", "2d ago") computed
 * from a millisecond difference between the current time and a timestamp.
 * The same bucketing appears in the comment thread, the thread list and the
 * user popup; only the wording of the first bucket differs.
 */
module RelativeTime {
  import opened Wrappers
  import opened JsText

  /** The bucket a time difference falls in, with the figure it shows. */
  datatype Age = JustNow | MinutesAgo(minutes: nat) | HoursAgo(hours: nat) | DaysAgo(days: nat)

  const MinuteMs: int := 60000

  /** `Math.floor(diff / 1000 / 60)`: whole minutes, rounded down (also for negative differences). */
  function ElapsedMinutes(diffMs: int): (m: int)
    ensures m * MinuteMs <= diffMs < (m + 1) * MinuteMs
  {
    diffMs / MinuteMs
  }

  /** The four buckets of the formatter, each with the figure it displays. */
  function Bucket(minutes: int): (a: Age)
    ensures a.JustNow? <==> minutes < 1
    ensures a.MinutesAgo? <==> 1 <= minutes < 60
    ensures a.HoursAgo? <==> 60 <= minutes < 1440
    ensures a.DaysAgo? <==> 1440 <= minutes
    ensures a.MinutesAgo? ==> a.minutes == minutes
    ensures a.HoursAgo? ==> 1 <= a.hours <= 23 && a.hours * 60 <= minutes < (a.hours + 1) * 60
    ensures a.DaysAgo? ==> 1 <= a.days && a.days * 1440 <= minutes < (a.days + 1) * 1440
  {
    if minutes < 1 then JustNow
    else if minutes < 60 then MinutesAgo(minutes)
    else if minutes < 1440 then HoursAgo(minutes / 60)
    else DaysAgo(minutes / 1440)
  }

  /** The label of a bucket; the first bucket's wording is a parameter. */
  function Render(a: Age, justNow: string): string
  {
    match a
    case JustNow => justNow
    case MinutesAgo(n) => NatToString(n) + "m ago"
    case HoursAgo(n) => NatToString(n) + "h ago"
    case DaysAgo(n) => NatToString(n) + "d ago"
  }

  /** Reads a label back into its bucket; anything else is `None`. */
  function ParseAge(s: string, justNow: string): Option<Age>
  {
    if s == justNow then Some(JustNow)
    else if |s| > 5 && s[|s| - 4..] == " ago" && IsDigits(s[..|s| - 5]) then
      var n := DigitsValue(s[..|s| - 5]);
      match s[|s| - 5]
      case 'm' => Some(MinutesAgo(n))
      case 'h' => Some(HoursAgo(n))
      case 'd' => Some(DaysAgo(n))
      case _ => None
    else None
  }

  /** Every label reads back as the bucket it was rendered from, so no two buckets share a label. */
  lemma {:induction false} RenderRoundTrip(a: Age, justNow: string)
    requires !EndsWith(justNow, " ago")
    ensures ParseAge(Render(a, justNow), justNow) == Some(a)
  {
    match a
    case JustNow =>
    case MinutesAgo(n) =>
      assert Render(a, justNow) == NatToString(n) + ['m'] + " ago";
      NumberLabelRoundTrip(n, 'm', justNow);
    case HoursAgo(n) =>
      assert Render(a, justNow) == NatToString(n) + ['h'] + " ago";
      NumberLabelRoundTrip(n, 'h', justNow);
    case DaysAgo(n) =>
      assert Render(a, justNow) == NatToString(n) + ['d'] + " ago";
      NumberLabelRoundTrip(n, 'd', justNow);
  }

  lemma NumberLabelRoundTrip(n: nat, unit: char, justNow: string)
    requires !EndsWith(justNow, " ago") && (unit == 'm' || unit == 'h' || unit == 'd')
    ensures var s := NatToString(n) + [unit] + " ago";
      ParseAge(s, justNow) == Some(if unit == 'm' then MinutesAgo(n) else if unit == 'h' then HoursAgo(n) else DaysAgo(n))
  {
    var digits := NatToString(n);
    NatToStringRoundTrip(n);
    DigitsLabel(digits, unit, justNow);
  }

  lemma DigitsLabel(digits: string, unit: char, justNow: string)
    requires !EndsWith(justNow, " ago") && IsDigits(digits)
    ensures var s := digits + [unit] + " ago";
      s != justNow && |s| > 5 && s[|s| - 4..] == " ago" && s[..|s| - 5] == digits && s[|s| - 5] == unit
  {
    var s := digits + [unit] + " ago";
    assert s[|s| - 4..] == " ago";
    assert s[..|s| - 5] == digits;
  }

  /**
   * The comment timestamp label: the label reads back as the bucket of the
   * elapsed whole minutes, whose figure is described by `Bucket`.
   */
  function FormatTimestamp(nowMs: int, stampMs: int): (s: string)
    ensures ParseAge(s, "just now") == Some(Bucket(ElapsedMinutes(nowMs - stampMs)))
    ensures nowMs - stampMs < MinuteMs <==> s == "just now"
  {
    var a := Bucket(ElapsedMinutes(nowMs - stampMs));
    RenderRoundTrip(a, "just now");
    Render(a, "just now")
  }

  /**
   * The popup's "last active" label: "Just now" with a capital J below one
   * minute (future timestamps included), otherwise the comment label.
   */
  function FormatLastActive(nowMs: int, stampMs: int): (s: string)
    ensures ParseAge(s, "Just now") == Some(Bucket(ElapsedMinutes(nowMs - stampMs)))
    ensures nowMs - stampMs < MinuteMs <==> s == "Just now"
    ensures nowMs - stampMs >= MinuteMs ==> s == FormatTimestamp(nowMs, stampMs)
  {
    var a := Bucket(ElapsedMinutes(nowMs - stampMs));
    RenderRoundTrip(a, "Just now");
    Render(a, "Just now")
  }
}
