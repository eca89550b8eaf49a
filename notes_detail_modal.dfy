/** The relative-time label of `formatDate` in
    `src/components/NotesDetailModal.tsx`. Times are whole milliseconds
    since the epoch; the current time, the parsing of the saved date and
    the locale-formatted absolute date are inputs. */
module NotesDetailModal {
  import opened Wrappers
  import Text

  /** `Math.floor((now - then) / 1000)`. Dafny's division by a positive
      divisor rounds down, as `Math.floor` does, also for a date in the
      future. */
  function ElapsedSeconds(nowMs: int, thenMs: int): (d: int)
    ensures d * 1000 <= nowMs - thenMs < d * 1000 + 1000
  {
    (nowMs - thenMs) / 1000
  }

  /** Which line of `formatDate` produces the label. */
  datatype Label =
    | JustNow
    | MinutesAgo(minutes: nat)
    | HoursAgo(hours: nat)
    | DaysAgo(days: nat)
    | AbsoluteDate

  /** The threshold chain on the elapsed seconds: exactly one label applies. */
  function Bucket(d: int): (l: Label)
    ensures l == JustNow <==> d < 60
    ensures l.MinutesAgo? <==> 60 <= d < 3600
    ensures l.HoursAgo? <==> 3600 <= d < 86400
    ensures l.DaysAgo? <==> 86400 <= d < 604800
    ensures l == AbsoluteDate <==> d >= 604800
    ensures l.MinutesAgo? ==> 1 <= l.minutes <= 59 && l.minutes * 60 <= d < l.minutes * 60 + 60
    ensures l.HoursAgo? ==> 1 <= l.hours <= 23 && l.hours * 3600 <= d < l.hours * 3600 + 3600
    ensures l.DaysAgo? ==> 1 <= l.days <= 6 && l.days * 86400 <= d < l.days * 86400 + 86400
  {
    if d < 60 then JustNow
    else if d < 3600 then MinutesAgo(d / 60)
    else if d < 86400 then HoursAgo(d / 3600)
    else if d < 604800 then DaysAgo(d / 86400)
    else AbsoluteDate
  }

  /** A label's place in time order: later buckets hold older notes. */
  function Rank(l: Label): (r: nat)
    ensures r <= 4
  {
    match l
    case JustNow => 0
    case MinutesAgo(_) => 1
    case HoursAgo(_) => 2
    case DaysAgo(_) => 3
    case AbsoluteDate => 4
  }

  /** The number a relative label shows, zero for the others. */
  function Amount(l: Label): nat {
    match l
    case MinutesAgo(n) => n
    case HoursAgo(n) => n
    case DaysAgo(n) => n
    case _ => 0
  }

  /** An older note never gets a younger-looking label. */
  lemma BucketMonotone(d1: int, d2: int)
    requires d1 <= d2
    ensures Rank(Bucket(d1)) <= Rank(Bucket(d2))
    ensures Rank(Bucket(d1)) == Rank(Bucket(d2)) ==> Amount(Bucket(d1)) <= Amount(Bucket(d2))
  {
    var l1, l2 := Bucket(d1), Bucket(d2);
    if l1.MinutesAgo? && l2.MinutesAgo? {
      assert l1.minutes * 60 <= d2;
    } else if l1.HoursAgo? && l2.HoursAgo? {
      assert l1.hours * 3600 <= d2;
    } else if l1.DaysAgo? && l2.DaysAgo? {
      assert l1.days * 86400 <= d2;
    }
  }

  /** The text of a label; the absolute date is the locale formatter's. */
  function Render(l: Label, absolute: string): (s: string)
    ensures l == JustNow ==> s == "Just now"
    ensures l.MinutesAgo? ==> s == Text.NatToString(l.minutes) + "m ago"
    ensures l.HoursAgo? ==> s == Text.NatToString(l.hours) + "h ago"
    ensures l.DaysAgo? ==> s == Text.NatToString(l.days) + "d ago"
    ensures l == AbsoluteDate ==> s == absolute
  {
    match l
    case JustNow => "Just now"
    case MinutesAgo(n) => Text.NatToString(n) + "m ago"
    case HoursAgo(n) => Text.NatToString(n) + "h ago"
    case DaysAgo(n) => Text.NatToString(n) + "d ago"
    case AbsoluteDate => absolute
  }

  /** Different relative labels read differently. */
  lemma {:induction false} RenderInjective(a: Label, b: Label, absolute: string)
    requires a != AbsoluteDate && b != AbsoluteDate
    requires Render(a, absolute) == Render(b, absolute)
    ensures a == b
  {
    var s := Render(a, absolute);
    LeadingDigit(a, absolute);
    LeadingDigit(b, absolute);
    if a != JustNow && b != JustNow {
      var na, nb := Text.NatToString(Amount(a)), Text.NatToString(Amount(b));
      var ua: char := if a.MinutesAgo? then 'm' else if a.HoursAgo? then 'h' else 'd';
      var ub: char := if b.MinutesAgo? then 'm' else if b.HoursAgo? then 'h' else 'd';
      assert Render(a, absolute) == na + [ua] + " ago";
      assert Render(b, absolute) == nb + [ub] + " ago";
      assert |na| == |nb| && ua == ub && na == nb by {
        assert |na| + 5 == |s| == |nb| + 5;
        assert s[|s| - 5] == ua && s[|s| - 5] == ub;
        assert na == s[..|na|] && nb == s[..|nb|];
      }
      Text.NatToStringInjective(Amount(a), Amount(b));
    }
  }

  /** "Just now" starts with a letter, every other relative label with a digit. */
  lemma LeadingDigit(l: Label, absolute: string)
    requires l != AbsoluteDate
    ensures |Render(l, absolute)| > 0
    ensures Text.IsDigit(Render(l, absolute)[0]) <==> l != JustNow
  {
    if l != JustNow {
      assert Render(l, absolute)[0] == Text.NatToString(Amount(l))[0];
    }
  }

  /** `formatDate`: `then` is the saved date's time, `None` when it does not
      parse, in which case every comparison with the elapsed `NaN` fails
      and the absolute formatting is used. */
  function FormatDate(nowMs: int, thenMs: Option<int>, absolute: string): (s: string)
    ensures thenMs.None? ==> s == absolute
    ensures thenMs.Some? ==> s == Render(Bucket(ElapsedSeconds(nowMs, thenMs.value)), absolute)
    ensures thenMs.Some? && ElapsedSeconds(nowMs, thenMs.value) < 60 ==> s == "Just now"
  {
    if thenMs.None? then absolute
    else Render(Bucket(ElapsedSeconds(nowMs, thenMs.value)), absolute)
  }
}
