/** The relative-time labels of the client pages: `formatTimeAgo` in
    public/js/chat.js ("now", "5m", "3h", "2d") and `getTimeAgo` in
    public/js/notifications.js and public/js/profile.js ("Just now",
    "5m ago", ...). All three cut the elapsed seconds at the same thresholds;
    past a week they show the locale date, which is not modelled. */
module TimeAgo {
  import opened Common
  import opened Text

  const Minute := 60
  const Hour := 3600
  const Day := 86400
  const Week := 604800

  /** Which label an elapsed time gets, with the whole count it shows. */
  datatype Age = JustNow | Minutes(n: nat) | Hours(n: nat) | Days(n: nat) | LocaleDate

  /** `Math.floor((now - date) / 1000)` seconds, cut at one minute, hour, day
      and week; `Math.floor` of a non-negative quotient is Dafny's `/`. A
      date in the future gives a negative count and falls in the first
      bucket. */
  function Bucket(seconds: int): (a: Age)
    ensures a.JustNow? <==> seconds < Minute
    ensures a.Minutes? ==> 1 <= a.n < 60 && a.n * Minute <= seconds < (a.n + 1) * Minute
    ensures a.Hours? ==> 1 <= a.n < 24 && a.n * Hour <= seconds < (a.n + 1) * Hour
    ensures a.Days? ==> 1 <= a.n < 7 && a.n * Day <= seconds < (a.n + 1) * Day
    ensures a.LocaleDate? <==> seconds >= Week
  {
    if seconds < Minute then JustNow
    else if seconds < Hour then Minutes(seconds / Minute)
    else if seconds < Day then Hours(seconds / Hour)
    else if seconds < Week then Days(seconds / Day)
    else LocaleDate
  }

  /** The buckets in the order time passes through them. */
  function Rank(a: Age): nat {
    match a
    case JustNow => 0
    case Minutes(_) => 1
    case Hours(_) => 2
    case Days(_) => 3
    case LocaleDate => 4
  }

  /** An older date never gets a younger label: the bucket does not go back,
      and within one bucket the count does not go down. */
  lemma BucketMonotone(s: int, t: int)
    requires s <= t
    ensures Rank(Bucket(s)) <= Rank(Bucket(t))
    ensures Rank(Bucket(s)) == Rank(Bucket(t)) && !Bucket(s).JustNow? && !Bucket(s).LocaleDate? ==>
              Bucket(s).n <= Bucket(t).n
  {
    var a, b := Bucket(s), Bucket(t);
    if Rank(a) == Rank(b) && a.Minutes? {
      assert a.n * Minute <= s <= t < (b.n + 1) * Minute;
    } else if Rank(a) == Rank(b) && a.Hours? {
      assert a.n * Hour <= s <= t < (b.n + 1) * Hour;
    } else if Rank(a) == Rank(b) && a.Days? {
      assert a.n * Day <= s <= t < (b.n + 1) * Day;
    }
  }

  /** The label `formatTimeAgo` of the chat page shows; None for the
      locale date. */
  function ChatLabel(a: Age): (r: Option<string>)
    ensures r.None? <==> a.LocaleDate?
    ensures a.JustNow? ==> r == Some("now")
  {
    match a
    case JustNow => Some("now")
    case Minutes(n) => Some(NatToString(n) + "m")
    case Hours(n) => Some(NatToString(n) + "h")
    case Days(n) => Some(NatToString(n) + "d")
    case LocaleDate => None
  }

  /** The label `getTimeAgo` of the notifications and profile pages shows;
      None for the locale date. */
  function NoticeLabel(a: Age): (r: Option<string>)
    ensures r.None? <==> a.LocaleDate?
    ensures a.JustNow? ==> r == Some("Just now")
  {
    match a
    case JustNow => Some("Just now")
    case Minutes(n) => Some(NatToString(n) + "m ago")
    case Hours(n) => Some(NatToString(n) + "h ago")
    case Days(n) => Some(NatToString(n) + "d ago")
    case LocaleDate => None
  }

  /** `formatTimeAgo(date)` with the elapsed seconds given: "now" under a
      minute, then the floored count of minutes, hours or days with its
      unit, and the locale date (None) from a week on. */
  function FormatTimeAgo(seconds: int): (r: Option<string>)
    ensures r.None? <==> seconds >= Week
    ensures seconds < Minute ==> r == Some("now")
    ensures Minute <= seconds < Hour ==> r == Some(NatToString(seconds / Minute) + "m")
    ensures Hour <= seconds < Day ==> r == Some(NatToString(seconds / Hour) + "h")
    ensures Day <= seconds < Week ==> r == Some(NatToString(seconds / Day) + "d")
  {
    ChatLabel(Bucket(seconds))
  }

  /** `getTimeAgo(date)` with the elapsed seconds given: "Just now" under a
      minute, then the floored count of minutes, hours or days with its
      unit and " ago", and the locale date (None) from a week on. */
  function GetTimeAgo(seconds: int): (r: Option<string>)
    ensures r.None? <==> seconds >= Week
    ensures seconds < Minute ==> r == Some("Just now")
    ensures Minute <= seconds < Hour ==> r == Some(NatToString(seconds / Minute) + "m ago")
    ensures Hour <= seconds < Day ==> r == Some(NatToString(seconds / Hour) + "h ago")
    ensures Day <= seconds < Week ==> r == Some(NatToString(seconds / Day) + "d ago")
  {
    NoticeLabel(Bucket(seconds))
  }

  /** The unit a label ends with (or starts its suffix with). */
  function UnitChar(a: Age): char
    requires a.Minutes? || a.Hours? || a.Days?
  {
    if a.Minutes? then 'm' else if a.Hours? then 'h' else 'd'
  }

  /** Digits followed by text that starts with neither a digit nor an `x`:
      `parseInt` reads the digits' value. */
  lemma ParseIntStopsAtSuffix(n: nat, suffix: string)
    requires suffix != [] && !('0' <= suffix[0] <= '9') && suffix[0] != 'x' && suffix[0] != 'X'
    ensures ParseInt(NatToString(n) + suffix) == Some(n)
  {
    var d := NatToString(n);
    var l := d + suffix;
    assert l[0] == d[0];
    NoSpaceTrimStart(l);
    assert Unsigned(l) == l;
    assert !HexPrefixed(l) by {
      if |d| == 1 { assert l[1] == suffix[0]; } else { assert l[1] == d[1]; }
    }
    LeadingDigitsOfDigits(d, suffix);
    NatToStringRoundTrip(n);
  }

  /** The leading digits of a run of digits followed by a non-digit are
      that run. */
  lemma {:induction false} LeadingDigitsOfDigits(d: string, suffix: string)
    requires forall k :: 0 <= k < |d| ==> '0' <= d[k] <= '9'
    requires suffix != [] && !('0' <= suffix[0] <= '9')
    ensures LeadingDigits(d + suffix) == d
  {
    if d == [] {
      assert d + suffix == suffix;
    } else {
      assert (d + suffix)[1..] == d[1..] + suffix;
      LeadingDigitsOfDigits(d[1..], suffix);
    }
  }

  /** Every label but "now" and the locale date reads back, with
      `parseInt`, as the count it shows, and the chat label ends with its
      unit: the labels tell the buckets and counts apart. */
  lemma LabelsReadBack(a: Age)
    requires a.Minutes? || a.Hours? || a.Days?
    ensures ParseInt(ChatLabel(a).value) == Some(a.n)
    ensures ParseInt(NoticeLabel(a).value) == Some(a.n)
    ensures var l := ChatLabel(a).value; l[|l| - 1] == UnitChar(a)
  {
    if a.Minutes? {
      ParseIntStopsAtSuffix(a.n, "m");
      ParseIntStopsAtSuffix(a.n, "m ago");
    } else if a.Hours? {
      ParseIntStopsAtSuffix(a.n, "h");
      ParseIntStopsAtSuffix(a.n, "h ago");
    } else {
      ParseIntStopsAtSuffix(a.n, "d");
      ParseIntStopsAtSuffix(a.n, "d ago");
    }
  }

  /** The two styles agree: one shows "now" where the other shows
      "Just now", and otherwise the chat label followed by " ago". */
  lemma StylesAgree(seconds: int)
    ensures FormatTimeAgo(seconds).None? <==> GetTimeAgo(seconds).None?
    ensures Bucket(seconds).JustNow? ==> FormatTimeAgo(seconds) == Some("now") && GetTimeAgo(seconds) == Some("Just now")
    ensures !Bucket(seconds).JustNow? && !Bucket(seconds).LocaleDate? ==>
              GetTimeAgo(seconds).value == FormatTimeAgo(seconds).value + " ago"
  {
  }
}
