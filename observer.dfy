/** The capture loop of observer.py. Each pass of `while running` checks the lock, then the
    idle monitor, and only then takes a screenshot and stores it; skips are logged at most once a
    minute per reason. The wall clock, the lock check, the outcome of `capture_manager.capture()`
    and the arrival of SIGINT/SIGTERM are oracles: one `Tick` per pass gives their answers. */
module Observer {
  import opened Wrappers
  import opened Models
  import opened Storage
  import opened Activity

  /** `skip_log_interval_seconds`. */
  const SkipLogInterval: real := 60.0

  const LockedReason: string := "locked"
  const IdleReason: string := "idle"
  const CaptureSkippedReason: string := "capture_skipped"

  /** `last_skip_reason` and `last_skip_log_at`. */
  datatype SkipState = SkipState(reason: Option<string>, loggedAt: real)

  /** The values `main` starts the loop with. */
  const InitialSkip: SkipState := SkipState(None, 0.0)

  /** The answers of one pass: `time.time()`, `is_session_locked()`, the monitor's clock and lock
      answer inside `is_idle()`, what `capture()` returned or raised, and whether a signal arrived
      before the next `while running` test. */
  datatype Tick = Tick(now: real, locked: bool, clock: int, lockedAtIdle: bool,
                       captured: Result<CaptureRecord>, signalled: bool)

  /** What one pass did. */
  datatype Decision =
    | SkipLocked
    | SkipIdle
    | Persist(record: CaptureRecord)
    | SkipCapture(message: string)
    | CaptureFailed(message: string)

  /** The branch a pass takes: the lock is checked first, then idleness, and a capture is
      attempted only when neither holds; CaptureSkipped is told apart from any other error. */
  function Decide(locked: bool, idle: bool, captured: Result<CaptureRecord>): (d: Decision)
    ensures d == SkipLocked <==> locked
    ensures d == SkipIdle <==> !locked && idle
    ensures d.Persist? <==> !locked && !idle && captured.Ok?
    ensures d.Persist? ==> d.record == captured.value
    ensures d.SkipCapture? <==> !locked && !idle && captured.Err? && captured.error.kind == Skipped
    ensures d.CaptureFailed? <==> !locked && !idle && captured.Err? && captured.error.kind != Skipped
  {
    if locked then SkipLocked
    else if idle then SkipIdle
    else
      match captured
      case Ok(record) => Persist(record)
      case Err(e) => if e.kind == Skipped then SkipCapture(e.message) else CaptureFailed(e.message)
  }

  /** The skip reason a pass logs under, if it is a skip at all. */
  function SkipReason(d: Decision): (r: Option<string>)
    ensures r.None? <==> d.Persist? || d.CaptureFailed?
  {
    match d
    case SkipLocked => Some(LockedReason)
    case SkipIdle => Some(IdleReason)
    case SkipCapture(_) => Some(CaptureSkippedReason)
    case _ => None
  }

  /** A skip is logged when its reason differs from the last one logged or a full interval has
      passed since that log. */
  predicate LogsSkip(s: SkipState, reason: string, now: real) {
    s.reason != Some(reason) || now - s.loggedAt >= SkipLogInterval
  }

  /** The log lines one pass writes about skips: the reason and the time, or nothing. */
  function SkipLog(s: SkipState, d: Decision, now: real): (r: seq<(string, real)>)
    ensures |r| <= 1
    ensures |r| == 1 <==> SkipReason(d).Some? && LogsSkip(s, SkipReason(d).value, now)
    ensures |r| == 1 ==> r[0] == (SkipReason(d).value, now)
  {
    match SkipReason(d)
    case Some(reason) => if LogsSkip(s, reason, now) then [(reason, now)] else []
    case None => []
  }

  /** The skip state after one pass: logging records the reason and the time; every other pass,
      a throttled skip included, leaves it alone. */
  function NextSkip(s: SkipState, d: Decision, now: real): (r: SkipState)
    ensures |SkipLog(s, d, now)| == 1 ==> r == SkipState(Some(SkipLog(s, d, now)[0].0), now)
    ensures |SkipLog(s, d, now)| == 0 ==> r == s
  {
    match SkipReason(d)
    case Some(reason) => if LogsSkip(s, reason, now) then SkipState(Some(reason), now) else s
    case None => s
  }

  /** The observable trace of a run: the skip state, the skip log lines and the records stored. */
  datatype Trace = Trace(skip: SkipState, log: seq<(string, real)>, stored: seq<CaptureRecord>)

  /** Whether pass `t` finds the monitor idle, for a monitor last active at `last`. */
  predicate IdleAt(t: Tick, last: int, threshold: int) {
    Idle(last, threshold, t.clock, t.lockedAtIdle)
  }

  function DecisionAt(t: Tick, last: int, threshold: int): Decision {
    Decide(t.locked, IdleAt(t, last, threshold), t.captured)
  }

  /** The trace after the passes `ticks`, one after another, from the initial skip state. */
  function Replay(ticks: seq<Tick>, last: int, threshold: int): (r: Trace)
    ensures |r.log| <= |ticks| && |r.stored| <= |ticks|
  {
    if |ticks| == 0 then Trace(InitialSkip, [], [])
    else
      var before := Replay(ticks[..|ticks| - 1], last, threshold);
      var t := ticks[|ticks| - 1];
      var d := DecisionAt(t, last, threshold);
      Trace(NextSkip(before.skip, d, t.now), before.log + SkipLog(before.skip, d, t.now),
            before.stored + (if d.Persist? then [d.record] else []))
  }

  /** The skip state always mirrors the last log line, and two consecutive log lines with the
      same reason are at least one interval apart: a repeated skip is logged once a minute at most. */
  lemma {:induction false} ReplayLogSpacing(ticks: seq<Tick>, last: int, threshold: int)
    ensures var r := Replay(ticks, last, threshold);
      && (|r.log| == 0 ==> r.skip == InitialSkip)
      && (|r.log| > 0 ==> r.skip == SkipState(Some(r.log[|r.log| - 1].0), r.log[|r.log| - 1].1))
      && forall i :: 0 <= i < |r.log| - 1 && r.log[i].0 == r.log[i + 1].0 ==> r.log[i + 1].1 - r.log[i].1 >= SkipLogInterval
  {
    if |ticks| > 0 {
      var init := ticks[..|ticks| - 1];
      ReplayLogSpacing(init, last, threshold);
      var before := Replay(init, last, threshold);
      var t := ticks[|ticks| - 1];
      var d := DecisionAt(t, last, threshold);
      var line := SkipLog(before.skip, d, t.now);
      var r := Replay(ticks, last, threshold);
      assert r.log == before.log + line;
      if |line| == 1 {
        forall i | 0 <= i < |r.log| - 1 && r.log[i].0 == r.log[i + 1].0
          ensures r.log[i + 1].1 - r.log[i].1 >= SkipLogInterval
        {
          if i == |before.log| - 1 {
            assert r.log[i] == before.log[i] && r.log[i + 1] == line[0];
          } else {
            assert r.log[i] == before.log[i] && r.log[i + 1] == before.log[i + 1];
          }
        }
      } else {
        assert r.log == before.log;
      }
    }
  }

  /** The first skip of a run is always logged, whatever its time. */
  lemma FirstSkipLogged(t: Tick, last: int, threshold: int)
    requires SkipReason(DecisionAt(t, last, threshold)).Some?
    ensures Replay([t], last, threshold).log == [(SkipReason(DecisionAt(t, last, threshold)).value, t.now)]
  {
    assert [t][..0] == [];
  }

  /** A second locked pass within the interval writes nothing and keeps the skip state; one a
      full interval later is logged again. */
  lemma LockedThrottled(t1: Tick, t2: Tick, last: int, threshold: int)
    requires t1.locked && t2.locked
    ensures var r := Replay([t1, t2], last, threshold);
      (t2.now - t1.now < SkipLogInterval ==> r.log == [(LockedReason, t1.now)] && r.skip == SkipState(Some(LockedReason), t1.now))
      && (t2.now - t1.now >= SkipLogInterval ==> r.log == [(LockedReason, t1.now), (LockedReason, t2.now)])
  {
    var first := ReplayFirst(t1, last, threshold);
    ReplayStep([t1, t2], 1, last, threshold);
    assert [t1, t2][..1] == [t1] && [t1, t2][..2] == [t1, t2];
  }

  /** The trace of a single locked pass: logged, and recorded in the skip state. */
  lemma ReplayFirst(t: Tick, last: int, threshold: int) returns (r: Trace)
    requires t.locked
    ensures r == Replay([t], last, threshold)
    ensures r == Trace(SkipState(Some(LockedReason), t.now), [(LockedReason, t.now)], [])
  {
    ReplayStep([t], 0, last, threshold);
    assert [t][..0] == [] && [t][..1] == [t];
    r := Replay([t], last, threshold);
  }

  /** A skip for another reason is logged at once, even within the interval. */
  lemma ReasonChangeLogged(t1: Tick, t2: Tick, last: int, threshold: int)
    requires t1.locked && !t2.locked && IdleAt(t2, last, threshold)
    ensures Replay([t1, t2], last, threshold).log == [(LockedReason, t1.now), (IdleReason, t2.now)]
  {
    var first := ReplayFirst(t1, last, threshold);
    ReplayStep([t1, t2], 1, last, threshold);
    assert [t1, t2][..1] == [t1] && [t1, t2][..2] == [t1, t2];
  }

  /** The records stored by a run are exactly the successful captures of passes that were
      neither locked nor idle, in order. */
  lemma {:induction false} ReplayStored(ticks: seq<Tick>, last: int, threshold: int)
    ensures forall r :: r in Replay(ticks, last, threshold).stored ==>
              exists k :: 0 <= k < |ticks| && !ticks[k].locked && !IdleAt(ticks[k], last, threshold)
                          && ticks[k].captured == Ok(r)
  {
    if |ticks| > 0 {
      var init := ticks[..|ticks| - 1];
      ReplayStored(init, last, threshold);
      forall r | r in Replay(ticks, last, threshold).stored
        ensures exists k :: 0 <= k < |ticks| && !ticks[k].locked && !IdleAt(ticks[k], last, threshold)
                            && ticks[k].captured == Ok(r)
      {
        if r in Replay(init, last, threshold).stored {
          var k :| 0 <= k < |init| && !init[k].locked && !IdleAt(init[k], last, threshold) && init[k].captured == Ok(r);
          assert ticks[k] == init[k];
        } else {
          assert ticks[|ticks| - 1].captured == Ok(r);
        }
      }
    }
  }

  /** The index of the first pass a signal follows. */
  function FirstSignal(ticks: seq<Tick>): (r: nat)
    requires exists k :: 0 <= k < |ticks| && ticks[k].signalled
    ensures r < |ticks| && ticks[r].signalled
    ensures forall k :: 0 <= k < r ==> !ticks[k].signalled
  {
    if ticks[0].signalled then 0
    else
      assert exists k :: 0 <= k < |ticks[1..]| && ticks[1..][k].signalled by {
        var k :| 0 <= k < |ticks| && ticks[k].signalled;
        assert ticks[1..][k - 1] == ticks[k];
      }
      1 + FirstSignal(ticks[1..])
  }

  /** `StoreCapture` of the records `stored`, numbered on from `lastId`. */
  function Numbered(lastId: int, stored: seq<CaptureRecord>): (r: seq<StoredCapture>)
    ensures |r| == |stored|
    ensures forall k :: 0 <= k < |stored| ==> r[k] == StoreCapture(lastId + k + 1, stored[k])
  {
    seq(|stored|, k requires 0 <= k < |stored| => StoreCapture(lastId + k + 1, stored[k]))
  }

  class CaptureLoop {
    const repo: ObservationRepository
    const monitor: InputActivityMonitor
    var skip: SkipState
    /** The skip lines logged so far: the reason and the time. */
    var log: seq<(string, real)>
    /** The records stored, with the id `add_capture` gave them. */
    var stored: seq<CaptureRecord>
    var running: bool

    constructor (repo: ObservationRepository, monitor: InputActivityMonitor)
      ensures this.repo == repo && this.monitor == monitor
      ensures skip == InitialSkip && log == [] && stored == [] && running
    {
      this.repo := repo;
      this.monitor := monitor;
      skip := InitialSkip;
      log := [];
      stored := [];
      running := true;
    }

    /** One pass of the loop body. A successful capture is stored and takes the id `add_capture`
        returns; a CaptureSkipped is logged like a skip; any other error is only logged and does
        not touch the skip state. */
    method Tick(t: Tick) returns (d: Decision)
      requires repo.Valid()
      modifies this, repo
      ensures repo.Valid()
      ensures d == DecisionAt(t, monitor.lastActivity, monitor.idleThreshold)
      ensures skip == NextSkip(old(skip), d, t.now)
      ensures log == old(log) + SkipLog(old(skip), d, t.now)
      ensures d.Persist? ==> stored == old(stored) + [d.record.(id := Some(old(repo.lastId) + 1))]
                             && repo.captures == old(repo.captures) + [StoreCapture(old(repo.lastId) + 1, d.record)]
                             && repo.lastId == old(repo.lastId) + 1
      ensures !d.Persist? ==> stored == old(stored) && repo.captures == old(repo.captures)
                              && repo.lastId == old(repo.lastId)
      ensures repo.analysis == old(repo.analysis) && running == old(running)
    {
      var idle := false;
      if !t.locked {
        idle := monitor.IsIdle(t.clock, t.lockedAtIdle);
      }
      d := Decide(t.locked, idle, t.captured);
      if d.Persist? {
        var id := repo.AddCapture(d.record);
        stored := stored + [d.record.(id := Some(id))];
      }
      log := log + SkipLog(skip, d, t.now);
      skip := NextSkip(skip, d, t.now);
    }

    /** `main`'s loop from `monitor.start()` to the `finally`: passes run until the signal that
        clears `running`; the monitor is stopped on the way out. */
    method Run(ticks: seq<Tick>) returns (passes: nat)
      requires exists k :: 0 <= k < |ticks| && ticks[k].signalled
      requires repo.Valid()
      modifies this, repo, monitor
      ensures repo.Valid()
      ensures passes == FirstSignal(ticks) + 1
      ensures !running && !monitor.mouseListener && !monitor.keyboardListener
      ensures skip == Replay(ticks[..passes], old(monitor.lastActivity), monitor.idleThreshold).skip
      ensures log == Replay(ticks[..passes], old(monitor.lastActivity), monitor.idleThreshold).log
      ensures repo.captures == old(repo.captures)
                               + Numbered(old(repo.lastId), Replay(ticks[..passes], old(monitor.lastActivity), monitor.idleThreshold).stored)
      ensures repo.analysis == old(repo.analysis)
    {
      monitor.Start();
      skip := InitialSkip;
      log := [];
      stored := [];
      running := true;
      passes := Passes(ticks);
      monitor.Stop();
    }

    /** The `while running` loop itself, from the initial skip state and an empty log. */
    method Passes(ticks: seq<Tick>) returns (passes: nat)
      requires exists k :: 0 <= k < |ticks| && ticks[k].signalled
      requires repo.Valid() && running && skip == InitialSkip && log == []
      modifies this, repo
      ensures repo.Valid()
      ensures passes == FirstSignal(ticks) + 1 && !running
      ensures skip == Replay(ticks[..passes], monitor.lastActivity, monitor.idleThreshold).skip
      ensures log == Replay(ticks[..passes], monitor.lastActivity, monitor.idleThreshold).log
      ensures repo.captures == old(repo.captures)
                               + Numbered(old(repo.lastId), Replay(ticks[..passes], monitor.lastActivity, monitor.idleThreshold).stored)
      ensures repo.analysis == old(repo.analysis)
    {
      ghost var last := monitor.lastActivity;
      ghost var threshold := monitor.idleThreshold;
      ghost var c0 := repo.captures;
      ghost var id0 := repo.lastId;
      ghost var stop := FirstSignal(ticks);
      var i := 0;
      assert ticks[..0] == [];
      while running
        invariant 0 <= i <= stop + 1 && stop < |ticks|
        invariant running <==> i <= stop
        invariant repo.Valid() && repo.analysis == old(repo.analysis)
        invariant Mirrors(Replay(ticks[..i], last, threshold), skip, log, repo.captures, repo.lastId, c0, id0)
        decreases |ticks| - i
      {
        Pass(ticks, i, last, threshold, c0, id0);
        i := i + 1;
      }
      passes := i;
    }

    /** One pass of the loop, signal included: the state goes on mirroring the replay. */
    method Pass(ticks: seq<Tick>, i: nat, ghost last: int, ghost threshold: int, ghost c0: seq<StoredCapture>,
                ghost id0: int)
      requires i < |ticks| && repo.Valid()
      requires monitor.lastActivity == last && monitor.idleThreshold == threshold
      requires Mirrors(Replay(ticks[..i], last, threshold), skip, log, repo.captures, repo.lastId, c0, id0)
      modifies this, repo
      ensures repo.Valid() && repo.analysis == old(repo.analysis)
      ensures Mirrors(Replay(ticks[..i + 1], last, threshold), skip, log, repo.captures, repo.lastId, c0, id0)
      ensures running == (old(running) && !ticks[i].signalled)
    {
      var t := ticks[i];
      ghost var skip0, log0, captures0, lastId0 := skip, log, repo.captures, repo.lastId;
      var d := Tick(t);
      PassKeepsMirror(ticks, i, last, threshold, c0, id0, skip0, log0, captures0, lastId0,
                      skip, log, repo.captures, repo.lastId, d);
      if t.signalled {
        running := false;
      }
    }
  }

  /** The loop's state mirrors a trace: the skip state and the log are the trace's, and the
      store holds the trace's records numbered on from `id0` after the records `c0`. */
  ghost predicate Mirrors(tr: Trace, skip: SkipState, log: seq<(string, real)>, captures: seq<StoredCapture>,
                          lastId: int, c0: seq<StoredCapture>, id0: int) {
    skip == tr.skip && log == tr.log && captures == c0 + Numbered(id0, tr.stored) && lastId == id0 + |tr.stored|
  }

  /** One pass, as `Tick` performs it, keeps the loop's state mirroring the replay. */
  lemma PassKeepsMirror(ticks: seq<Tick>, i: nat, last: int, threshold: int, c0: seq<StoredCapture>, id0: int,
                        skip0: SkipState, log0: seq<(string, real)>, captures0: seq<StoredCapture>, lastId0: int,
                        skip1: SkipState, log1: seq<(string, real)>, captures1: seq<StoredCapture>, lastId1: int,
                        d: Decision)
    requires i < |ticks| && d == DecisionAt(ticks[i], last, threshold)
    requires Mirrors(Replay(ticks[..i], last, threshold), skip0, log0, captures0, lastId0, c0, id0)
    requires skip1 == NextSkip(skip0, d, ticks[i].now) && log1 == log0 + SkipLog(skip0, d, ticks[i].now)
    requires d.Persist? ==> captures1 == captures0 + [StoreCapture(lastId0 + 1, d.record)] && lastId1 == lastId0 + 1
    requires !d.Persist? ==> captures1 == captures0 && lastId1 == lastId0
    ensures Mirrors(Replay(ticks[..i + 1], last, threshold), skip1, log1, captures1, lastId1, c0, id0)
  {
    var before := Replay(ticks[..i], last, threshold);
    ReplayStep(ticks, i, last, threshold);
    var after := Replay(ticks[..i + 1], last, threshold);
    assert after.stored == before.stored + (if d.Persist? then [d.record] else []);
    NumberedSnoc(id0, before.stored, d);
    if d.Persist? {
      assert captures1 == c0 + (Numbered(id0, before.stored) + [StoreCapture(id0 + |before.stored| + 1, d.record)]);
    }
  }

  /** One more pass extends the replay by that pass's decision. */
  lemma ReplayStep(ticks: seq<Tick>, i: nat, last: int, threshold: int)
    requires i < |ticks|
    ensures var before := Replay(ticks[..i], last, threshold);
      var d := DecisionAt(ticks[i], last, threshold);
      Replay(ticks[..i + 1], last, threshold)
      == Trace(NextSkip(before.skip, d, ticks[i].now), before.log + SkipLog(before.skip, d, ticks[i].now),
               before.stored + (if d.Persist? then [d.record] else []))
  {
    assert ticks[..i + 1][..i] == ticks[..i];
  }

  lemma NumberedSnoc(lastId: int, stored: seq<CaptureRecord>, d: Decision)
    ensures Numbered(lastId, stored + (if d.Persist? then [d.record] else []))
            == Numbered(lastId, stored) + (if d.Persist? then [StoreCapture(lastId + |stored| + 1, d.record)] else [])
  {
  }
}
