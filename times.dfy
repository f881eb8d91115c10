/** A stand-in for Python's timezone-aware `datetime`, all values in one fixed UTC offset. */
module Times {
  import opened Text

  datatype Timestamp = Timestamp(year: int, month: int, day: int, hour: int, minute: int, second: int, micro: int)

  /** The ranges `datetime` enforces (the day is not checked against the month's length). */
  predicate Valid(t: Timestamp) {
    1 <= t.year <= 9999 && 1 <= t.month <= 12 && 1 <= t.day <= 31
    && 0 <= t.hour < 24 && 0 <= t.minute < 60 && 0 <= t.second < 60 && 0 <= t.micro < 1000000
  }

  /** A timestamp `datetime` accepts. */
  type DateTime = t: Timestamp | Valid(t) witness Timestamp(1, 1, 1, 0, 0, 0, 0)

  /** Field-by-field (lexicographic) order: the order in which the ISO strings of one offset sort. */
  predicate Before(a: Timestamp, b: Timestamp) {
    if a.year != b.year then a.year < b.year
    else if a.month != b.month then a.month < b.month
    else if a.day != b.day then a.day < b.day
    else if a.hour != b.hour then a.hour < b.hour
    else if a.minute != b.minute then a.minute < b.minute
    else if a.second != b.second then a.second < b.second
    else a.micro < b.micro
  }

  /** A number that orders timestamps: an ORDER BY on the stored text compares these. */
  function Rank(t: Timestamp): int {
    ((((((t.year * 12 + (t.month - 1)) * 31 + (t.day - 1)) * 24 + t.hour) * 60 + t.minute) * 60 + t.second) * 1000000) + t.micro
  }

  lemma {:induction false} RankAgreesWithOrder(a: Timestamp, b: Timestamp)
    requires Valid(a) && Valid(b)
    ensures Before(a, b) <==> Rank(a) < Rank(b)
    ensures Rank(a) == Rank(b) <==> a == b
  {
    var da := (a.year * 12 + (a.month - 1)) * 31 + (a.day - 1);
    var db := (b.year * 12 + (b.month - 1)) * 31 + (b.day - 1);
    var sa := ((a.hour * 60 + a.minute) * 60 + a.second) * 1000000 + a.micro;
    var sb := ((b.hour * 60 + b.minute) * 60 + b.second) * 1000000 + b.micro;
    assert Rank(a) == da * 86400000000 + sa;
    assert Rank(b) == db * 86400000000 + sb;
    assert 0 <= sa < 86400000000 && 0 <= sb < 86400000000;
  }

  /** `strftime("%H:%M")`. */
  function HourMinute(hour: nat, minute: nat): (r: string)
    ensures |r| == 5 && r[2] == ':'
  {
    Pad(hour, 2) + ":" + Pad(minute, 2)
  }

  function ClockLabel(t: DateTime): (r: string)
    ensures |r| == 5
  {
    HourMinute(t.hour, t.minute)
  }

  /** `(t + timedelta(seconds=secs)).strftime("%H:%M")`: the wall clock wraps at midnight. */
  function ClockLabelAfter(t: DateTime, secs: int): (r: string)
    ensures |r| == 5
  {
    var tod := (t.hour * 3600 + t.minute * 60 + t.second + secs) % 86400;
    HourMinute(tod / 3600, (tod % 3600) / 60)
  }

  /** `strftime("%Y-%m-%d")`, also the first ten characters of `isoformat()`. */
  function IsoDate(t: DateTime): (r: string)
    ensures |r| == 10 && r[4] == '-' && r[7] == '-'
  {
    Pad(t.year, 4) + "-" + Pad(t.month, 2) + "-" + Pad(t.day, 2)
  }
}
