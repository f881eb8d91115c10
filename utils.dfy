/** The session-lock decision and the capture file stamp (mirulog/utils.py). The Windows calls
    (the WTS session query, opening the input desktop) are oracles whose answers are parameters. */
module Utils {
  import opened Wrappers
  import opened Text
  import opened Times
  import opened Config

  /** `WTSGetActiveConsoleSessionId()`'s answer when no console session is active. */
  const NoConsoleSession: int := 0xFFFF_FFFF

  /** The part of `WTSINFOEX_W` the decision reads: the level, and the session flags of level 1. */
  datatype WtsInfo = WtsInfo(level: int, flags: int)

  /** The session the query asks about: the console session, or, without one, the session of the
      current process (None when that lookup fails). */
  function QueriedSession(console: int, processSession: Option<int>): (r: Option<int>)
    ensures console != NoConsoleSession ==> r == Some(console)
    ensures console == NoConsoleSession ==> r == processSession
  {
    if console == NoConsoleSession then processSession else Some(console)
  }

  /** The documented meaning of the level-1 session flags: 0 is locked, 1 is unlocked, and
      anything else, or another level, says nothing. */
  function FlagsLocked(info: WtsInfo): (r: Option<bool>)
    ensures r == Some(true) <==> info.level == 1 && info.flags == 0
    ensures r == Some(false) <==> info.level == 1 && info.flags == 1
    ensures r.None? <==> info.level != 1 || (info.flags != 0 && info.flags != 1)
  {
    if info.level != 1 then None
    else if info.flags == 0 then Some(true)
    else if info.flags == 1 then Some(false)
    else None
  }

  /** `_wts_is_session_locked`: `query` answers for a session with the info, with None when the
      call fails or returns no buffer, or with an error when it raises; every failure is "unknown". */
  function WtsIsSessionLocked(console: int, processSession: Option<int>,
                              query: int -> Result<Option<WtsInfo>>): (r: Option<bool>)
    ensures QueriedSession(console, processSession).None? ==> r.None?
    ensures r == Some(true) <==>
              QueriedSession(console, processSession).Some?
              && query(QueriedSession(console, processSession).value) == Ok(Some(WtsInfo(1, 0)))
    ensures r == Some(false) <==>
              QueriedSession(console, processSession).Some?
              && query(QueriedSession(console, processSession).value) == Ok(Some(WtsInfo(1, 1)))
  {
    match QueriedSession(console, processSession)
    case None => None
    case Some(session) =>
      match query(session)
      case Err(_) => None
      case Ok(None) => None
      case Ok(Some(info)) => FlagsLocked(info)
  }

  const DisableLockCheckVar: string := "MIRULOG_DISABLE_LOCK_CHECK"

  /** The escape hatch: the variable, stripped and lower-cased, is one of the true words. */
  predicate LockCheckDisabled(env: Env) {
    Normalized(GetEnv(env, DisableLockCheckVar, "")) in TrueWords
  }

  /** The escape hatch reads the variable exactly as `_as_bool` with no default would. */
  lemma LockCheckDisabledAsBool(env: Env)
    ensures LockCheckDisabled(env) == AsBool(env(DisableLockCheckVar), None)
  {
    if env(DisableLockCheckVar).None? {
      assert Normalized("") == "";
    }
  }

  /** `is_session_locked`: `wts` is `_wts_is_session_locked()`'s answer and `desktopOpens` whether
      `OpenInputDesktop` returns a handle. */
  function IsSessionLocked(isWindows: bool, env: Env, wts: Option<bool>, desktopOpens: bool): (r: bool)
    ensures !isWindows ==> !r
    ensures LockCheckDisabled(env) ==> !r
    ensures isWindows && !LockCheckDisabled(env) && wts == Some(true) ==> (r <==> !desktopOpens)
    ensures isWindows && !LockCheckDisabled(env) && wts == Some(false) ==> !r
    ensures isWindows && !LockCheckDisabled(env) && wts.None? ==> (r <==> !desktopOpens)
  {
    if !isWindows then false
    else if LockCheckDisabled(env) then false
    else if wts.Some? then
      if wts.value && desktopOpens then false else wts.value
    else !desktopOpens
  }

  /** The whole decision in one line: locked exactly when on Windows, not disabled, WTS does not
      say unlocked, and the input desktop cannot be opened. */
  lemma LockedExactly(isWindows: bool, env: Env, wts: Option<bool>, desktopOpens: bool)
    ensures IsSessionLocked(isWindows, env, wts, desktopOpens)
            <==> isWindows && !LockCheckDisabled(env) && wts != Some(false) && !desktopOpens
  {
  }

  /** `timestamp_slug`: `strftime("%Y%m%d-%H%M%S")`. */
  function TimestampSlug(t: DateTime): (r: string)
    ensures |r| == 15 && r[8] == '-'
    ensures AllDigits(r[..8]) && AllDigits(r[9..])
    ensures r[0..4] == Pad(t.year, 4) && r[4..6] == Pad(t.month, 2) && r[6..8] == Pad(t.day, 2)
    ensures r[9..11] == Pad(t.hour, 2) && r[11..13] == Pad(t.minute, 2) && r[13..15] == Pad(t.second, 2)
  {
    var date := Pad(t.year, 4) + Pad(t.month, 2) + Pad(t.day, 2);
    var time := Pad(t.hour, 2) + Pad(t.minute, 2) + Pad(t.second, 2);
    var s := date + "-" + time;
    assert s[..8] == date && s[9..] == time;
    assert date[0..4] == Pad(t.year, 4) && date[4..6] == Pad(t.month, 2) && date[6..8] == Pad(t.day, 2);
    assert time[0..2] == Pad(t.hour, 2) && time[2..4] == Pad(t.minute, 2) && time[4..6] == Pad(t.second, 2);
    assert s[0..4] == date[0..4] && s[4..6] == date[4..6] && s[6..8] == date[6..8];
    assert s[9..11] == time[0..2] && s[11..13] == time[2..4] && s[13..15] == time[4..6];
    s
  }

  /** The slug reads back as the timestamp to the second: its digit groups are the year, month,
      day, hour, minute and second. */
  lemma SlugFields(t: DateTime)
    ensures var r := TimestampSlug(t);
      && DigitsValue(r[0..4]) == t.year && DigitsValue(r[4..6]) == t.month && DigitsValue(r[6..8]) == t.day
      && DigitsValue(r[9..11]) == t.hour && DigitsValue(r[11..13]) == t.minute && DigitsValue(r[13..15]) == t.second
  {
    assert Pow10(2) == 100 && Pow10(4) == 10000;
    PadValue(t.year, 4);
    PadValue(t.month, 2);
    PadValue(t.day, 2);
    PadValue(t.hour, 2);
    PadValue(t.minute, 2);
    PadValue(t.second, 2);
  }

  /** Two timestamps with the same slug agree to the second. */
  lemma SlugDeterminesSecond(a: DateTime, b: DateTime)
    requires TimestampSlug(a) == TimestampSlug(b)
    ensures a.year == b.year && a.month == b.month && a.day == b.day
    ensures a.hour == b.hour && a.minute == b.minute && a.second == b.second
  {
    SlugFields(a);
    SlugFields(b);
  }
}
