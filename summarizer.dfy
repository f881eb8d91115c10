/** Folding one day's analysed captures into segments, blockers and follow-ups
    (`build_daily_summary`, `_finalize_segment`, `_aggregate_task_totals`, `to_dict`). */
module Summarizer {
  import opened Wrappers
  import opened Text
  import opened Times
  import opened JsonValue
  import opened Models
  import opened Sorting

  /** One analysed capture as `build_daily_summary` unpacks it: eight columns, the
      timestamp already read by `datetime.fromisoformat`. */
  datatype Row = Row(
    capture_id: int,
    ts: DateTime,
    window_title: Option<string>,
    app: Option<string>,
    description: string,
    task: Option<string>,
    confidence: Option<real>,
    tags: Option<string>)

  const HighlightsPerSegment: nat := 3
  const MaxListedIssues: nat := 5

  function Last<T>(s: seq<T>): T
    requires |s| > 0
  {
    s[|s| - 1]
  }

  lemma PrefixSnoc<T>(s: seq<T>, i: nat)
    requires i < |s|
    ensures s[..i + 1] == s[..i] + [s[i]]
  {
  }

  /** `s[:n]`. */
  function Take<T>(s: seq<T>, n: nat): (r: seq<T>)
    ensures |r| == (if |s| < n then |s| else n) && r == s[..|r|]
  {
    if |s| <= n then s else s[..n]
  }

  /** `task or "Unclassified"`: a missing or empty label groups as "Unclassified". */
  function TaskOf(r: Row): (t: string)
    ensures t != ""
    ensures r.task.Some? && r.task.value != "" ==> t == r.task.value
  {
    if r.task.None? || r.task.value == "" then "Unclassified" else r.task.value
  }

  /** `[t.strip() for t in parts if t.strip()]`. */
  function StrippedNonEmpty(parts: seq<string>): (r: seq<string>)
    ensures forall k :: 0 <= k < |r| ==> r[k] != ""
  {
    if |parts| == 0 then []
    else
      var t := Strip(parts[0]);
      var rest := StrippedNonEmpty(parts[1..]);
      if t == "" then rest
      else
        NonEmptyCons(t, rest);
        [t] + rest
  }

  lemma NonEmptyCons(t: string, rest: seq<string>)
    requires t != "" && forall k :: 0 <= k < |rest| ==> rest[k] != ""
    ensures forall k :: 0 <= k < |[t] + rest| ==> ([t] + rest)[k] != ""
  {
    forall k | 0 <= k < |[t] + rest| ensures ([t] + rest)[k] != "" {
      if k > 0 { assert ([t] + rest)[k] == rest[k - 1]; }
    }
  }

  /** The row's tags: its comma-separated tag text, each part stripped, empty parts dropped. */
  function TagsOf(r: Row): seq<string> {
    StrippedNonEmpty(Split(r.tags.GetOr(""), ','))
  }

  /** The description mentions an error, a failure or an exception (case-insensitively). */
  predicate IsBlocker(r: Row) {
    var d := Lower(r.description);
    Contains(d, "error") || Contains(d, "fail") || Contains(d, "exception")
  }

  predicate IsFollowUpTag(t: string) {
    Lower(t) == "todo" || Lower(t) == "follow-up"
  }

  /** Some tag of the row is "todo" or "follow-up" (case-insensitively). */
  predicate IsFollowUp(r: Row) {
    exists t :: t in TagsOf(r) && IsFollowUpTag(t)
  }

  /** `f"{ts.strftime('%H:%M')} {description}"`. */
  function Highlight(r: Row): string {
    ClockLabel(r.ts) + " " + r.description
  }

  function Highlights(rows: seq<Row>): (h: seq<string>)
    ensures |h| == |rows| && forall i :: 0 <= i < |rows| ==> h[i] == Highlight(rows[i])
  {
    seq(|rows|, i requires 0 <= i < |rows| => Highlight(rows[i]))
  }

  /** `n * (interval_seconds / 60.0)`: the minutes that `n` samples stand for. */
  function SampleMinutes(n: nat, intervalSeconds: int): real {
    if n == 0 then 0.0 else SampleMinutes(n - 1, intervalSeconds) + intervalSeconds as real / 60.0
  }

  /** The minutes of `n` samples are `n` times the minutes of one. */
  lemma {:induction false} SampleMinutesProduct(n: nat, intervalSeconds: int)
    ensures SampleMinutes(n, intervalSeconds) == n as real * (intervalSeconds as real / 60.0)
  {
    if n > 0 {
      SampleMinutesProduct(n - 1, intervalSeconds);
      assert n as real * (intervalSeconds as real / 60.0)
          == (n - 1) as real * (intervalSeconds as real / 60.0) + intervalSeconds as real / 60.0;
    }
  }

  lemma {:induction false} SampleMinutesAdd(a: nat, b: nat, intervalSeconds: int)
    ensures SampleMinutes(a + b, intervalSeconds) == SampleMinutes(a, intervalSeconds) + SampleMinutes(b, intervalSeconds)
    decreases b
  {
    if b > 0 {
      SampleMinutesAdd(a, b - 1, intervalSeconds);
    }
  }

  // ---- the run being built (the loop's `current` dict) and its finalisation ----

  datatype OpenRun = OpenRun(task: string, start: DateTime, end: DateTime, highlights: seq<string>, count: nat)

  /** `_finalize_segment`: the period runs from the first sample to one interval after the
      last one, at most three highlights are kept, and the duration counts samples. */
  function FinalizeSegment(run: OpenRun, intervalSeconds: int): (seg: SummarySegment)
    ensures |seg.highlights| <= HighlightsPerSegment
  {
    SummarySegment(
      period_label := ClockLabel(run.start) + " - " + ClockLabelAfter(run.end, intervalSeconds),
      highlights := Take(run.highlights, HighlightsPerSegment),
      dominant_task := run.task,
      duration_minutes := SampleMinutes(run.count, intervalSeconds))
  }

  // ---- the specification of the fold: runs of equal task ----

  /** One step of the fold: the row joins the last run when it has the same task, else opens a new run. */
  function Extend(runs: seq<seq<Row>>, r: Row): (res: seq<seq<Row>>)
    requires forall k :: 0 <= k < |runs| ==> |runs[k]| > 0
    ensures forall k :: 0 <= k < |res| ==> |res[k]| > 0
  {
    if |runs| > 0 && TaskOf(Last(runs)[0]) == TaskOf(r) then runs[..|runs| - 1] + [Last(runs) + [r]]
    else runs + [[r]]
  }

  /** The runs the loop of `build_daily_summary` builds from `rows`, in order. */
  function Runs(rows: seq<Row>): (runs: seq<seq<Row>>)
    ensures forall k :: 0 <= k < |runs| ==> |runs[k]| > 0
  {
    if |rows| == 0 then [] else Extend(Runs(rows[..|rows| - 1]), Last(rows))
  }

  function Flatten(runs: seq<seq<Row>>): seq<Row> {
    if |runs| == 0 then [] else Flatten(runs[..|runs| - 1]) + Last(runs)
  }

  /** `runs` cuts `rows` into non-empty blocks of one task each, with different tasks in adjacent blocks. */
  ghost predicate IsRunPartition(runs: seq<seq<Row>>, rows: seq<Row>) {
    && Flatten(runs) == rows
    && (forall k :: 0 <= k < |runs| ==> |runs[k]| > 0)
    && (forall k, j :: 0 <= k < |runs| && 0 <= j < |runs[k]| ==> TaskOf(runs[k][j]) == TaskOf(runs[k][0]))
    && (forall k :: 0 <= k < |runs| - 1 ==> TaskOf(runs[k][0]) != TaskOf(runs[k + 1][0]))
  }

  /** The step of `RunsPartition` where the row joins the last run. */
  lemma RunsPartitionJoin(runs: seq<seq<Row>>, init: seq<Row>, r: Row)
    requires IsRunPartition(runs, init)
    requires |runs| > 0 && TaskOf(Last(runs)[0]) == TaskOf(r)
    ensures IsRunPartition(Extend(runs, r), init + [r])
  {
    var res := Extend(runs, r);
    var n := |runs|;
    assert res == runs[..n - 1] + [Last(runs) + [r]];
    assert res[..n - 1] == runs[..n - 1];
    assert Flatten(runs) == Flatten(runs[..n - 1]) + Last(runs);
    assert Flatten(res) == Flatten(res[..n - 1]) + (Last(runs) + [r]);
    forall k, j | 0 <= k < |res| && 0 <= j < |res[k]| ensures TaskOf(res[k][j]) == TaskOf(res[k][0]) {
      if k < n - 1 {
        assert res[k] == runs[k];
      } else if j < |Last(runs)| {
        assert res[k][j] == runs[n - 1][j];
      }
    }
    forall k | 0 <= k < |res| - 1 ensures TaskOf(res[k][0]) != TaskOf(res[k + 1][0]) {
      assert res[k] == runs[k];
      assert res[k + 1][0] == runs[k + 1][0];
    }
  }

  /** The step of `RunsPartition` where the row opens a new run. */
  lemma RunsPartitionOpen(runs: seq<seq<Row>>, init: seq<Row>, r: Row)
    requires IsRunPartition(runs, init)
    requires !(|runs| > 0 && TaskOf(Last(runs)[0]) == TaskOf(r))
    ensures IsRunPartition(Extend(runs, r), init + [r])
  {
    var res := Extend(runs, r);
    assert res == runs + [[r]];
    assert res[..|res| - 1] == runs;
    assert Flatten(res) == Flatten(runs) + [r];
    OpenedRunShape(runs, r);
  }

  /** Appending the one-row run `[r]` keeps each run of one task, and the runs' boundaries
      between different tasks when `r`'s task differs from the last run's. */
  lemma OpenedRunShape(runs: seq<seq<Row>>, r: Row)
    requires forall k :: 0 <= k < |runs| ==> |runs[k]| > 0
    requires forall k, j :: 0 <= k < |runs| && 0 <= j < |runs[k]| ==> TaskOf(runs[k][j]) == TaskOf(runs[k][0])
    requires forall k :: 0 <= k < |runs| - 1 ==> TaskOf(runs[k][0]) != TaskOf(runs[k + 1][0])
    requires !(|runs| > 0 && TaskOf(Last(runs)[0]) == TaskOf(r))
    ensures var res := runs + [[r]];
            && (forall k, j :: 0 <= k < |res| && 0 <= j < |res[k]| ==> TaskOf(res[k][j]) == TaskOf(res[k][0]))
            && (forall k :: 0 <= k < |res| - 1 ==> TaskOf(res[k][0]) != TaskOf(res[k + 1][0]))
  {
    var res := runs + [[r]];
    forall k, j | 0 <= k < |res| && 0 <= j < |res[k]| ensures TaskOf(res[k][j]) == TaskOf(res[k][0]) {
      if k < |runs| { assert res[k] == runs[k]; }
    }
    forall k | 0 <= k < |res| - 1 ensures TaskOf(res[k][0]) != TaskOf(res[k + 1][0]) {
      assert res[k] == runs[k];
      if k + 1 < |runs| { assert res[k + 1] == runs[k + 1]; }
    }
  }

  /** Every row lands in exactly one run, in order; runs hold one task; adjacent runs differ. */
  lemma {:induction false} RunsPartition(rows: seq<Row>)
    ensures IsRunPartition(Runs(rows), rows)
    decreases |rows|
  {
    if |rows| > 0 {
      var init := rows[..|rows| - 1];
      var r := Last(rows);
      RunsPartition(init);
      RunsPartitionStep(Runs(init), init, r);
      assert rows == init + [r];
    }
  }

  /** One step of the fold keeps a run partition: the row joins the last run or opens one. */
  lemma RunsPartitionStep(runs: seq<seq<Row>>, init: seq<Row>, r: Row)
    requires IsRunPartition(runs, init)
    ensures IsRunPartition(Extend(runs, r), init + [r])
  {
    if |runs| > 0 && TaskOf(Last(runs)[0]) == TaskOf(r) {
      RunsPartitionJoin(runs, init, r);
    } else {
      RunsPartitionOpen(runs, init, r);
    }
  }

  lemma {:induction false} FlattenEmpty(runs: seq<seq<Row>>)
    requires forall k :: 0 <= k < |runs| ==> |runs[k]| > 0
    ensures |Flatten(runs)| == 0 <==> |runs| == 0
  {
    if |runs| > 0 {
      assert |Flatten(runs)| >= |Last(runs)|;
    }
  }

  /** A partition of `rows` with its last row taken off. */
  function DropLast(parts: seq<seq<Row>>): seq<seq<Row>>
    requires |parts| > 0 && |Last(parts)| > 0
  {
    var lp := Last(parts);
    if |lp| == 1 then parts[..|parts| - 1] else parts[..|parts| - 1] + [lp[..|lp| - 1]]
  }

  /** Dropping the last row of a longer last run keeps each run of one task and the boundaries. */
  lemma ShortenedRunShape(parts: seq<seq<Row>>)
    requires |parts| > 0 && |Last(parts)| > 1
    requires forall k :: 0 <= k < |parts| ==> |parts[k]| > 0
    requires forall k, j :: 0 <= k < |parts| && 0 <= j < |parts[k]| ==> TaskOf(parts[k][j]) == TaskOf(parts[k][0])
    requires forall k :: 0 <= k < |parts| - 1 ==> TaskOf(parts[k][0]) != TaskOf(parts[k + 1][0])
    ensures var p := parts[..|parts| - 1] + [Last(parts)[..|Last(parts)| - 1]];
            && (forall k, j :: 0 <= k < |p| && 0 <= j < |p[k]| ==> TaskOf(p[k][j]) == TaskOf(p[k][0]))
            && (forall k :: 0 <= k < |p| - 1 ==> TaskOf(p[k][0]) != TaskOf(p[k + 1][0]))
  {
    var m := |parts|;
    var p := parts[..m - 1] + [Last(parts)[..|Last(parts)| - 1]];
    forall k, j | 0 <= k < |p| && 0 <= j < |p[k]| ensures TaskOf(p[k][j]) == TaskOf(p[k][0]) {
      if k < m - 1 { assert p[k] == parts[k]; } else { assert p[k][j] == parts[k][j]; }
    }
    forall k | 0 <= k < |p| - 1 ensures TaskOf(p[k][0]) != TaskOf(p[k + 1][0]) {
      assert p[k] == parts[k];
      assert p[k + 1][0] == parts[k + 1][0];
    }
  }

  lemma DropLastSingle(parts: seq<seq<Row>>, rows: seq<Row>)
    requires IsRunPartition(parts, rows) && |parts| > 0 && |Last(parts)| == 1
    ensures IsRunPartition(DropLast(parts), rows[..|rows| - 1])
    ensures Extend(DropLast(parts), Last(rows)) == parts
  {
    var m := |parts|;
    var p := parts[..m - 1];
    assert rows == Flatten(p) + parts[m - 1];
    assert rows[..|rows| - 1] == Flatten(p);
    forall k, j | 0 <= k < |p| && 0 <= j < |p[k]| ensures TaskOf(p[k][j]) == TaskOf(p[k][0]) {
      assert p[k] == parts[k];
    }
    if |p| > 0 {
      assert Last(p) == parts[m - 2];
    }
    assert Last(rows) == parts[m - 1][0];
    assert parts[m - 1] == [Last(rows)];
    assert parts == p + [parts[m - 1]];
  }

  lemma DropLastLonger(parts: seq<seq<Row>>, rows: seq<Row>)
    requires IsRunPartition(parts, rows) && |parts| > 0 && |Last(parts)| > 1
    ensures IsRunPartition(DropLast(parts), rows[..|rows| - 1])
    ensures Extend(DropLast(parts), Last(rows)) == parts
  {
    var m := |parts|;
    var lp := parts[m - 1];
    var shorter := lp[..|lp| - 1];
    var p := DropLast(parts);
    assert p == parts[..m - 1] + [shorter];
    assert p[..m - 1] == parts[..m - 1];
    assert rows == Flatten(parts[..m - 1]) + lp;
    assert Flatten(p) == Flatten(parts[..m - 1]) + shorter;
    assert lp == shorter + [Last(rows)];
    assert rows[..|rows| - 1] == Flatten(p);
    ShortenedRunShape(parts);
    assert TaskOf(Last(p)[0]) == TaskOf(Last(rows)) by {
      assert Last(p)[0] == lp[0];
      assert Last(rows) == lp[|lp| - 1];
    }
    assert p[..m - 1] + [shorter + [Last(rows)]] == parts;
  }

  /** The runs are the only such partition: the maximal consecutive runs of equal task. */
  lemma {:induction false} RunsUnique(parts: seq<seq<Row>>, rows: seq<Row>)
    requires IsRunPartition(parts, rows)
    ensures parts == Runs(rows)
    decreases |rows|
  {
    FlattenEmpty(parts);
    if |rows| > 0 {
      if |Last(parts)| == 1 { DropLastSingle(parts, rows); } else { DropLastLonger(parts, rows); }
      RunsUnique(DropLast(parts), rows[..|rows| - 1]);
    }
  }

  /** The state `current` holds once the rows of `run` have been folded into it. */
  function RunOf(run: seq<Row>): (o: OpenRun)
    requires |run| > 0
    ensures o.count == |run| && o.task == TaskOf(run[0])
  {
    OpenRun(TaskOf(run[0]), run[0].ts, Last(run).ts, Highlights(run), |run|)
  }

  function FinalizeAll(runs: seq<seq<Row>>, intervalSeconds: int): (segs: seq<SummarySegment>)
    requires forall k :: 0 <= k < |runs| ==> |runs[k]| > 0
    ensures |segs| == |runs|
  {
    if |runs| == 0 then []
    else FinalizeAll(runs[..|runs| - 1], intervalSeconds) + [FinalizeSegment(RunOf(Last(runs)), intervalSeconds)]
  }

  function Segments(rows: seq<Row>, intervalSeconds: int): seq<SummarySegment> {
    FinalizeAll(Runs(rows), intervalSeconds)
  }

  /** The descriptions of the rows `keep` selects, in row order. */
  function Descriptions(rows: seq<Row>, keep: Row -> bool): seq<string> {
    if |rows| == 0 then []
    else Descriptions(rows[..|rows| - 1], keep) + (if keep(Last(rows)) then [Last(rows).description] else [])
  }

  function Blockers(rows: seq<Row>): seq<string> {
    Descriptions(rows, IsBlocker)
  }

  function FollowUps(rows: seq<Row>): seq<string> {
    Descriptions(rows, IsFollowUp)
  }

  /** The `DailySummary` built from the collected pieces: at most five blockers and five
      follow-ups, and one interval of active time per analysed capture. */
  function Assemble(date: string, segments: seq<SummarySegment>, blocking: seq<string>, followups: seq<string>,
                    samples: nat, intervalSeconds: int): DailySummary
  {
    DailySummary(
      date := date,
      segments := segments,
      blocking_issues := Take(blocking, MaxListedIssues),
      follow_ups := Take(followups, MaxListedIssues),
      total_active_minutes := SampleMinutes(samples, intervalSeconds),
      markdown_path := None)
  }

  /** The summary `build_daily_summary` returns, stated as a function of its inputs. */
  function DailySummaryOf(rows: seq<Row>, date: string, intervalSeconds: int): (r: DailySummary)
    ensures r.date == date && r.markdown_path.None?
    ensures r.total_active_minutes == SampleMinutes(|rows|, intervalSeconds)
    ensures |r.blocking_issues| <= MaxListedIssues && |r.blocking_issues| <= |Blockers(rows)|
            && r.blocking_issues == Blockers(rows)[..|r.blocking_issues|]
    ensures |r.follow_ups| <= MaxListedIssues && |r.follow_ups| <= |FollowUps(rows)|
            && r.follow_ups == FollowUps(rows)[..|r.follow_ups|]
  {
    Assemble(date, Segments(rows, intervalSeconds), Blockers(rows), FollowUps(rows), |rows|, intervalSeconds)
  }

  /** What the loop of `build_daily_summary` holds after reading `prefix`: the open run is the
      last run so far and the closed segments are the finalised earlier runs. */
  ghost predicate Folded(prefix: seq<Row>, current: Option<OpenRun>, segments: seq<SummarySegment>, intervalSeconds: int) {
    var runs := Runs(prefix);
    if |runs| == 0 then current.None? && segments == []
    else current == Some(RunOf(Last(runs))) && segments == FinalizeAll(runs[..|runs| - 1], intervalSeconds)
  }

  lemma RunOfAppend(run: seq<Row>, r: Row)
    requires |run| > 0
    ensures RunOf(run + [r]) == RunOf(run).(end := r.ts, highlights := RunOf(run).highlights + [Highlight(r)], count := |run| + 1)
  {
    assert (run + [r])[0] == run[0];
    assert Highlights(run + [r]) == Highlights(run) + [Highlight(r)];
  }

  /** The loop body keeps `Folded` when the row continues the open run. */
  lemma FoldedContinue(prefix: seq<Row>, r: Row, current: Option<OpenRun>, segments: seq<SummarySegment>, intervalSeconds: int)
    requires Folded(prefix, current, segments, intervalSeconds)
    requires current.Some? && current.value.task == TaskOf(r)
    ensures Folded(prefix + [r], Some(current.value.(count := current.value.count + 1, end := r.ts,
                   highlights := current.value.highlights + [Highlight(r)])), segments, intervalSeconds)
  {
    var runs := Runs(prefix);
    assert TaskOf(Last(runs)[0]) == TaskOf(r);
    RunsGrow(prefix, r);
    RunOfAppend(Last(runs), r);
  }

  /** A row of the last run's task lengthens that run and leaves the others. */
  lemma RunsGrow(prefix: seq<Row>, r: Row)
    requires |Runs(prefix)| > 0 && TaskOf(Last(Runs(prefix))[0]) == TaskOf(r)
    ensures var runs := Runs(prefix);
            var res := Runs(prefix + [r]);
            |res| == |runs| && res[..|res| - 1] == runs[..|runs| - 1] && Last(res) == Last(runs) + [r]
  {
    assert (prefix + [r])[..|prefix|] == prefix;
    var runs := Runs(prefix);
    var res := Runs(prefix + [r]);
    assert res == Extend(runs, r);
    assert res == runs[..|runs| - 1] + [Last(runs) + [r]];
  }

  /** The loop body keeps `Folded` when the row starts a new run. */
  lemma FoldedOpen(prefix: seq<Row>, r: Row, current: Option<OpenRun>, segments: seq<SummarySegment>, intervalSeconds: int)
    requires Folded(prefix, current, segments, intervalSeconds)
    requires !(current.Some? && current.value.task == TaskOf(r))
    ensures Folded(prefix + [r], Some(OpenRun(TaskOf(r), r.ts, r.ts, [Highlight(r)], 1)),
                   if current.Some? then segments + [FinalizeSegment(current.value, intervalSeconds)] else segments,
                   intervalSeconds)
  {
    assert (prefix + [r])[..|prefix|] == prefix;
    var runs := Runs(prefix);
    var res := Runs(prefix + [r]);
    assert res == runs + [[r]];
    assert res[..|res| - 1] == runs;
    if |runs| > 0 {
      assert runs[..|runs| - 1] + [Last(runs)] == runs;
    }
    assert RunOf([r]) == OpenRun(TaskOf(r), r.ts, r.ts, [Highlight(r)], 1);
  }

  /** After the last row, closing the open run yields all segments. */
  lemma FoldedDone(rows: seq<Row>, current: Option<OpenRun>, segments: seq<SummarySegment>, intervalSeconds: int)
    requires Folded(rows, current, segments, intervalSeconds)
    ensures (if current.Some? then segments + [FinalizeSegment(current.value, intervalSeconds)] else segments)
            == Segments(rows, intervalSeconds)
  {
    var runs := Runs(rows);
    if |runs| > 0 {
      assert runs[..|runs| - 1] + [Last(runs)] == runs;
    }
  }

  lemma DescriptionsStep(prefix: seq<Row>, r: Row, keep: Row -> bool)
    ensures Descriptions(prefix + [r], keep) == Descriptions(prefix, keep) + (if keep(r) then [r.description] else [])
  {
    assert (prefix + [r])[..|prefix|] == prefix;
  }

  /** `build_daily_summary`: one pass over the rows, extending the open run while the task
      repeats and closing it when the task changes. */
  method BuildDailySummary(rows: seq<Row>, date: string, intervalSeconds: int) returns (summary: DailySummary)
    ensures summary == DailySummaryOf(rows, date, intervalSeconds)
  {
    var segments: seq<SummarySegment> := [];
    var blocking: seq<string> := [];
    var followups: seq<string> := [];
    var current: Option<OpenRun> := None;
    for i := 0 to |rows|
      invariant blocking == Blockers(rows[..i])
      invariant followups == FollowUps(rows[..i])
      invariant Folded(rows[..i], current, segments, intervalSeconds)
    {
      var r := rows[i];
      PrefixSnoc(rows, i);
      DescriptionsStep(rows[..i], r, IsBlocker);
      DescriptionsStep(rows[..i], r, IsFollowUp);
      var task := TaskOf(r);
      var highlight := Highlight(r);
      if IsBlocker(r) {
        blocking := blocking + [r.description];
      }
      if IsFollowUp(r) {
        followups := followups + [r.description];
      }
      if current.Some? && current.value.task == task {
        FoldedContinue(rows[..i], r, current, segments, intervalSeconds);
        current := Some(current.value.(count := current.value.count + 1, end := r.ts,
                                       highlights := current.value.highlights + [highlight]));
      } else {
        FoldedOpen(rows[..i], r, current, segments, intervalSeconds);
        if current.Some? {
          segments := segments + [FinalizeSegment(current.value, intervalSeconds)];
        }
        current := Some(OpenRun(task, r.ts, r.ts, [highlight], 1));
      }
    }
    assert rows[..|rows|] == rows;
    FoldedDone(rows, current, segments, intervalSeconds);
    if current.Some? {
      segments := segments + [FinalizeSegment(current.value, intervalSeconds)];
    }
    summary := Assemble(date, segments, blocking, followups, |rows|, intervalSeconds);
  }

  // ---- properties of the summary ----

  lemma {:induction false} FinalizeAllAt(runs: seq<seq<Row>>, intervalSeconds: int, k: nat)
    requires forall j :: 0 <= j < |runs| ==> |runs[j]| > 0
    requires k < |runs|
    ensures FinalizeAll(runs, intervalSeconds)[k] == FinalizeSegment(RunOf(runs[k]), intervalSeconds)
    decreases |runs|
  {
    var init := runs[..|runs| - 1];
    FinalizeAllSnoc(runs, intervalSeconds);
    if k < |runs| - 1 {
      FinalizeAllAt(init, intervalSeconds, k);
      assert init[k] == runs[k];
    }
  }

  /** The segments of all runs are those of all but the last, then the last run's. */
  lemma FinalizeAllSnoc(runs: seq<seq<Row>>, intervalSeconds: int)
    requires forall j :: 0 <= j < |runs| ==> |runs[j]| > 0
    requires |runs| > 0
    ensures FinalizeAll(runs, intervalSeconds)
            == FinalizeAll(runs[..|runs| - 1], intervalSeconds) + [FinalizeSegment(RunOf(Last(runs)), intervalSeconds)]
  {
    var init := runs[..|runs| - 1];
    assert forall j :: 0 <= j < |init| ==> init[j] == runs[j];
  }

  /** Segment `k` describes run `k`: its task, its period from the first sample to one interval
      after the last, its first (at most three) highlights, and one interval per sample. */
  lemma SegmentFacts(rows: seq<Row>, intervalSeconds: int, k: nat)
    requires k < |Segments(rows, intervalSeconds)|
    ensures var run := Runs(rows)[k];
            var seg := Segments(rows, intervalSeconds)[k];
            && seg.dominant_task == TaskOf(run[0])
            && seg.period_label == ClockLabel(run[0].ts) + " - " + ClockLabelAfter(run[|run| - 1].ts, intervalSeconds)
            && |seg.highlights| == (if |run| < HighlightsPerSegment then |run| else HighlightsPerSegment)
            && (forall j :: 0 <= j < |seg.highlights| ==> seg.highlights[j] == Highlight(run[j]))
            && seg.duration_minutes == SampleMinutes(|run|, intervalSeconds)
  {
    FinalizeAllAt(Runs(rows), intervalSeconds, k);
  }

  /** Neighbouring segments have different tasks, and a day has no segment iff it has no rows. */
  lemma AdjacentSegmentsDiffer(rows: seq<Row>, intervalSeconds: int)
    ensures var segs := Segments(rows, intervalSeconds);
            && (forall k :: 0 <= k < |segs| - 1 ==> segs[k].dominant_task != segs[k + 1].dominant_task)
            && (|segs| == 0 <==> |rows| == 0)
  {
    var runs := Runs(rows);
    RunsPartition(rows);
    FlattenEmpty(runs);
    forall k | 0 <= k < |runs| - 1
      ensures Segments(rows, intervalSeconds)[k].dominant_task != Segments(rows, intervalSeconds)[k + 1].dominant_task
    {
      FinalizeAllAt(runs, intervalSeconds, k);
      FinalizeAllAt(runs, intervalSeconds, k + 1);
    }
  }

  function SampleCounts(runs: seq<seq<Row>>): nat {
    if |runs| == 0 then 0 else SampleCounts(runs[..|runs| - 1]) + |Last(runs)|
  }

  lemma {:induction false} FlattenLength(runs: seq<seq<Row>>)
    ensures |Flatten(runs)| == SampleCounts(runs)
    decreases |runs|
  {
    if |runs| > 0 {
      FlattenLength(runs[..|runs| - 1]);
    }
  }

  /** The sample counts of the segments add up to the number of rows. */
  lemma SampleCountsSum(rows: seq<Row>)
    ensures SampleCounts(Runs(rows)) == |rows|
  {
    RunsPartition(rows);
    FlattenLength(Runs(rows));
  }

  function SumDurations(segs: seq<SummarySegment>): real {
    if |segs| == 0 then 0.0 else SumDurations(segs[..|segs| - 1]) + Last(segs).duration_minutes
  }

  /** Segments whose durations are the sample minutes of their runs add up to the sample
      minutes of all the runs' rows. */
  lemma {:induction false} SumDurationsByCounts(segs: seq<SummarySegment>, runs: seq<seq<Row>>, intervalSeconds: int)
    requires |segs| == |runs|
    requires forall k :: 0 <= k < |segs| ==> segs[k].duration_minutes == SampleMinutes(|runs[k]|, intervalSeconds)
    ensures SumDurations(segs) == SampleMinutes(SampleCounts(runs), intervalSeconds)
  {
    if |segs| > 0 {
      var n := |segs| - 1;
      SumDurationsByCounts(segs[..n], runs[..n], intervalSeconds);
      SampleMinutesAdd(SampleCounts(runs[..n]), |runs[n]|, intervalSeconds);
    }
  }

  lemma FinalizeAllDurations(runs: seq<seq<Row>>, intervalSeconds: int)
    requires forall j :: 0 <= j < |runs| ==> |runs[j]| > 0
    ensures SumDurations(FinalizeAll(runs, intervalSeconds)) == SampleMinutes(SampleCounts(runs), intervalSeconds)
  {
    var segs := FinalizeAll(runs, intervalSeconds);
    forall k | 0 <= k < |segs| ensures segs[k].duration_minutes == SampleMinutes(|runs[k]|, intervalSeconds) {
      FinalizeAllAt(runs, intervalSeconds, k);
    }
    SumDurationsByCounts(segs, runs, intervalSeconds);
  }

  /** The total active time equals the sum of the segment durations. */
  lemma TotalIsSumOfDurations(rows: seq<Row>, date: string, intervalSeconds: int)
    ensures var s := DailySummaryOf(rows, date, intervalSeconds);
            s.total_active_minutes == SumDurations(s.segments)
  {
    SampleCountsSum(rows);
    FinalizeAllDurations(Runs(rows), intervalSeconds);
  }

  /** Selecting from a concatenation selects from each part: a later row never changes
      which earlier rows are listed, so the summary keeps the first five in row order. */
  lemma {:induction false} DescriptionsAppend(a: seq<Row>, b: seq<Row>, keep: Row -> bool)
    ensures Descriptions(a + b, keep) == Descriptions(a, keep) + Descriptions(b, keep)
    decreases |b|
  {
    if |b| == 0 {
      assert a + b == a;
    } else {
      var b' := b[..|b| - 1];
      DescriptionsAppend(a, b', keep);
      assert (a + b)[..|a + b| - 1] == a + b';
    }
  }

  /** A description is listed iff some selected row carries it. */
  lemma {:induction false} DescriptionsMembership(rows: seq<Row>, keep: Row -> bool)
    ensures forall d :: d in Descriptions(rows, keep) <==> exists i :: 0 <= i < |rows| && keep(rows[i]) && rows[i].description == d
    decreases |rows|
  {
    if |rows| > 0 {
      var init := rows[..|rows| - 1];
      DescriptionsMembership(init, keep);
      assert forall i :: 0 <= i < |init| ==> init[i] == rows[i];
    }
  }

  /** A description is a listed blocker iff some blocker row carries it; a follow-up likewise. */
  lemma IssuesMembership(rows: seq<Row>)
    ensures forall d :: d in Blockers(rows) <==> exists i :: 0 <= i < |rows| && IsBlocker(rows[i]) && rows[i].description == d
    ensures forall d :: d in FollowUps(rows) <==> exists i :: 0 <= i < |rows| && IsFollowUp(rows[i]) && rows[i].description == d
  {
    DescriptionsMembership(rows, IsBlocker);
    DescriptionsMembership(rows, IsFollowUp);
  }

  /** Later rows never change the blockers and follow-ups of earlier rows. */
  lemma IssuesAppend(a: seq<Row>, b: seq<Row>)
    ensures Blockers(a + b) == Blockers(a) + Blockers(b)
    ensures FollowUps(a + b) == FollowUps(a) + FollowUps(b)
  {
    DescriptionsAppend(a, b, IsBlocker);
    DescriptionsAppend(a, b, IsFollowUp);
  }

  /** The summary lists at most five blockers and five follow-ups: the first ones in row order. */
  lemma IssuesCapped(rows: seq<Row>, date: string, intervalSeconds: int)
    ensures var s := DailySummaryOf(rows, date, intervalSeconds);
            && |s.blocking_issues| == (if |Blockers(rows)| < MaxListedIssues then |Blockers(rows)| else MaxListedIssues)
            && s.blocking_issues == Blockers(rows)[..|s.blocking_issues|]
            && |s.follow_ups| == (if |FollowUps(rows)| < MaxListedIssues then |FollowUps(rows)| else MaxListedIssues)
            && s.follow_ups == FollowUps(rows)[..|s.follow_ups|]
  {
  }

  /** Tags written as `",".join(tags)` read back as the same list when every tag is non-empty,
      already stripped and free of commas. */
  lemma {:induction false} StoredTagsReadBack(r: Row, tags: seq<string>)
    requires forall k :: 0 <= k < |tags| ==> tags[k] != "" && Strip(tags[k]) == tags[k] && ',' !in tags[k]
    requires r.tags == Some(Join(",", tags))
    ensures TagsOf(r) == tags
  {
    if |tags| == 0 {
      assert r.tags.GetOr("") == "";
      assert Split("", ',') == [""];
      assert Strip("") == "";
      assert StrippedNonEmpty([""]) == [] + StrippedNonEmpty([]);
    } else {
      SplitJoin(tags, ',');
      assert Join([','], tags) == Join(",", tags);
      KeepsStripped(tags);
    }
  }

  lemma {:induction false} KeepsStripped(tags: seq<string>)
    requires forall k :: 0 <= k < |tags| ==> tags[k] != "" && Strip(tags[k]) == tags[k]
    ensures StrippedNonEmpty(tags) == tags
  {
    if |tags| > 0 {
      var t := tags[0];
      assert t != "" && Strip(t) == t;
      KeepsStripped(tags[1..]);
      assert StrippedNonEmpty(tags) == [t] + StrippedNonEmpty(tags[1..]);
      assert tags == [t] + tags[1..];
    }
  }

  /** `%H:%M` of nine o'clock and `m` minutes, for a one-digit `m`. */
  lemma NineOClock(m: nat)
    requires m < 10
    ensures HourMinute(9, m) == ['0', '9', ':', '0', DigitChar(m)]
  {
    assert Pad(9, 2) == Pad(0, 1) + [DigitChar(9)] == "09";
    assert Pad(m, 2) == Pad(0, 1) + [DigitChar(m)];
    assert Pad(0, 1) == "0";
  }

  lemma ExamplePeriods()
    ensures "09:00" + " - " + "09:02" == "09:00 - 09:02"
    ensures "09:02" + " - " + "09:03" == "09:02 - 09:03"
  {
  }

  lemma ExampleRuns(r0: Row, r1: Row, r2: Row)
    requires TaskOf(r0) == TaskOf(r1) != TaskOf(r2)
    ensures Runs([r0, r1, r2]) == [[r0, r1], [r2]]
  {
    var rows := [r0, r1, r2];
    assert rows[..2] == [r0, r1] && [r0, r1][..1] == [r0] && [r0][..0] == [];
    assert Runs([r0]) == [[r0]];
    assert Runs([r0, r1]) == [[r0] + [r1]];
    assert [r0] + [r1] == [r0, r1];
    assert rows[..|rows| - 1] == [r0, r1] && Last(rows) == r2;
    assert Runs(rows) == Extend([[r0, r1]], r2);
  }

  /** One minute after `hh:mm:00`, for the minutes of the example. */
  lemma MinuteLater(b: DateTime, m: nat)
    requires b.hour == 9 && b.minute == m && b.second == 0 && m < 59
    ensures ClockLabelAfter(b, 60) == HourMinute(9, m + 1)
  {
    var tod := 9 * 3600 + m * 60 + 60;
    assert tod < 86400 && tod % 86400 == tod;
    assert tod / 3600 == 9 && (tod % 3600) / 60 == m + 1;
  }

  lemma ExampleCodingSegment(r0: Row, r1: Row)
    requires r0.ts.hour == 9 && r0.ts.minute == 0 && r0.task == Some("coding")
    requires r1.ts.hour == 9 && r1.ts.minute == 1 && r1.ts.second == 0
    ensures var seg := FinalizeSegment(RunOf([r0, r1]), 60);
            seg.period_label == "09:00 - 09:02" && seg.dominant_task == "coding" && seg.duration_minutes == 2.0
  {
    NineOClock(0);
    NineOClock(2);
    MinuteLater(r1.ts, 1);
    assert ClockLabel(r0.ts) == "09:00" && ClockLabelAfter(r1.ts, 60) == "09:02";
    ExamplePeriods();
    assert SampleMinutes(2, 60) == 2.0;
  }

  lemma ExampleMeetingSegment(r2: Row)
    requires r2.ts.hour == 9 && r2.ts.minute == 2 && r2.ts.second == 0 && r2.task == Some("meeting")
    ensures var seg := FinalizeSegment(RunOf([r2]), 60);
            seg.period_label == "09:02 - 09:03" && seg.dominant_task == "meeting" && seg.duration_minutes == 1.0
  {
    NineOClock(2);
    NineOClock(3);
    MinuteLater(r2.ts, 2);
    assert ClockLabel(r2.ts) == "09:02" && ClockLabelAfter(r2.ts, 60) == "09:03";
    ExamplePeriods();
    assert SampleMinutes(1, 60) == 1.0;
  }

  /** The worked example: coding at 09:00 and 09:01, then a meeting at 09:02, one sample a minute. */
  lemma ThreeSampleDay(r0: Row, r1: Row, r2: Row)
    requires r0.ts.hour == 9 && r0.ts.minute == 0 && r0.ts.second == 0 && r0.task == Some("coding")
    requires r1.ts.hour == 9 && r1.ts.minute == 1 && r1.ts.second == 0 && r1.task == Some("coding")
    requires r2.ts.hour == 9 && r2.ts.minute == 2 && r2.ts.second == 0 && r2.task == Some("meeting")
    ensures var segs := Segments([r0, r1, r2], 60);
            && |segs| == 2
            && segs[0].period_label == "09:00 - 09:02" && segs[0].dominant_task == "coding" && segs[0].duration_minutes == 2.0
            && segs[1].period_label == "09:02 - 09:03" && segs[1].dominant_task == "meeting" && segs[1].duration_minutes == 1.0
  {
    var rows := [r0, r1, r2];
    assert TaskOf(r0) == "coding" && TaskOf(r1) == "coding" && TaskOf(r2) == "meeting";
    ExampleRuns(r0, r1, r2);
    ExampleCodingSegment(r0, r1);
    ExampleMeetingSegment(r2);
    FinalizeAllAt(Runs(rows), 60, 0);
    FinalizeAllAt(Runs(rows), 60, 1);
  }

  // ---- `_aggregate_task_totals` ----

  predicate Distinct<T(==)>(s: seq<T>) {
    forall i, j :: 0 <= i < j < |s| ==> s[i] != s[j]
  }

  /** `totals[task] = totals.get(task, 0.0) + minutes` on an insertion-ordered dict. */
  function AddTo(totals: seq<(string, real)>, task: string, minutes: real): seq<(string, real)> {
    if |totals| == 0 then [(task, minutes)]
    else if totals[0].0 == task then [(task, totals[0].1 + minutes)] + totals[1..]
    else [totals[0]] + AddTo(totals[1..], task, minutes)
  }

  /** The dict the loop of `_aggregate_task_totals` builds, in insertion order. */
  function TaskSums(segs: seq<SummarySegment>): seq<(string, real)> {
    if |segs| == 0 then []
    else AddTo(TaskSums(segs[..|segs| - 1]), Last(segs).dominant_task, Last(segs).duration_minutes)
  }

  function Tasks(segs: seq<SummarySegment>): (r: seq<string>)
    ensures |r| == |segs| && forall i :: 0 <= i < |segs| ==> r[i] == segs[i].dominant_task
  {
    seq(|segs|, i requires 0 <= i < |segs| => segs[i].dominant_task)
  }

  /** The distinct elements of `s` in order of first appearance. */
  function FirstAppearances(s: seq<string>): seq<string> {
    if |s| == 0 then []
    else
      var d := FirstAppearances(s[..|s| - 1]);
      if Last(s) in s[..|s| - 1] then d else d + [Last(s)]
  }

  /** The minutes of all segments whose task is `task`. */
  function TaskMinutes(segs: seq<SummarySegment>, task: string): real {
    if |segs| == 0 then 0.0
    else TaskMinutes(segs[..|segs| - 1], task) + (if Last(segs).dominant_task == task then Last(segs).duration_minutes else 0.0)
  }

  /** The sort key of `sorted(..., key=lambda item: item[1], reverse=True)`: a stable ascending
      sort on the negated total keeps equal totals in insertion order, as Python's does. */
  function ByTotalDescending(entry: (string, real)): real {
    -entry.1
  }

  function TaskTotals(segs: seq<SummarySegment>): (r: seq<(string, real)>)
    ensures multiset(r) == multiset(TaskSums(segs))
    ensures SortedBy(r, ByTotalDescending)
  {
    SortByFacts(TaskSums(segs), ByTotalDescending);
    SortBy(TaskSums(segs), ByTotalDescending)
  }

  /** `_aggregate_task_totals`: sum the minutes per task, then sort by total, largest first. */
  method AggregateTaskTotals(summary: DailySummary) returns (totals: seq<(string, real)>)
    ensures totals == TaskTotals(summary.segments)
  {
    var segs := summary.segments;
    var sums: seq<(string, real)> := [];
    for i := 0 to |segs|
      invariant sums == TaskSums(segs[..i])
    {
      assert segs[..i + 1][..i] == segs[..i];
      sums := AddTo(sums, segs[i].dominant_task, segs[i].duration_minutes);
    }
    assert segs[..|segs|] == segs;
    totals := SortBy(sums, ByTotalDescending);
  }

  lemma {:induction false} AddToLabels(totals: seq<(string, real)>, task: string, minutes: real)
    ensures Keys(AddTo(totals, task, minutes)) == (if task in Keys(totals) then Keys(totals) else Keys(totals) + [task])
  {
    var r := AddTo(totals, task, minutes);
    if |totals| == 0 {
      assert Keys(r) == [task];
    } else {
      var rest := totals[1..];
      LabelsCons(totals[0], rest);
      assert totals == [totals[0]] + rest;
      if totals[0].0 == task {
        LabelsCons((task, totals[0].1 + minutes), rest);
      } else {
        AddToLabels(rest, task, minutes);
        LabelsCons(totals[0], AddTo(rest, task, minutes));
        assert task in Keys(totals) <==> task in Keys(rest);
        if task !in Keys(rest) {
          assert [totals[0].0] + (Keys(rest) + [task]) == ([totals[0].0] + Keys(rest)) + [task];
        }
      }
    }
  }

  lemma LabelsCons(x: (string, real), rest: seq<(string, real)>)
    ensures Keys([x] + rest) == [x.0] + Keys(rest)
  {
  }

  lemma {:induction false} AddToValues(totals: seq<(string, real)>, task: string, minutes: real)
    requires Distinct(Keys(totals))
    ensures var r := AddTo(totals, task, minutes);
            && |r| >= |totals|
            && (forall i :: 0 <= i < |totals| ==> r[i].1 == totals[i].1 + (if totals[i].0 == task then minutes else 0.0))
  {
    if |totals| > 0 {
      var rest := totals[1..];
      assert Keys(totals) == [totals[0].0] + Keys(rest);
      var r := AddTo(totals, task, minutes);
      if totals[0].0 == task {
        assert task !in Keys(rest);
        assert r == [(task, totals[0].1 + minutes)] + rest;
        forall i | 0 < i < |totals| ensures totals[i].0 != task {
          assert Keys(rest)[i - 1] == totals[i].0;
        }
      } else {
        assert Distinct(Keys(rest));
        AddToValues(rest, task, minutes);
        assert r == [totals[0]] + AddTo(rest, task, minutes);
      }
    }
  }

  lemma {:induction false} AddToNew(totals: seq<(string, real)>, task: string, minutes: real)
    requires task !in Keys(totals)
    ensures |AddTo(totals, task, minutes)| > |totals| && AddTo(totals, task, minutes)[|totals|] == (task, minutes)
  {
    if |totals| > 0 {
      var rest := totals[1..];
      assert Keys(totals) == [totals[0].0] + Keys(rest);
      AddToNew(rest, task, minutes);
    }
  }

  /** Adding minutes to a task keeps the labels (appending the task when it is new), adds the
      minutes to the task's own entry only, and puts a new task last. */
  lemma AddToFacts(totals: seq<(string, real)>, task: string, minutes: real)
    requires Distinct(Keys(totals))
    ensures var r := AddTo(totals, task, minutes);
            && Keys(r) == (if task in Keys(totals) then Keys(totals) else Keys(totals) + [task])
            && (forall i :: 0 <= i < |totals| ==> r[i].1 == totals[i].1 + (if totals[i].0 == task then minutes else 0.0))
            && (task !in Keys(totals) ==> r[|totals|] == (task, minutes))
  {
    AddToLabels(totals, task, minutes);
    AddToValues(totals, task, minutes);
    if task !in Keys(totals) {
      AddToNew(totals, task, minutes);
    }
  }

  lemma {:induction false} FirstAppearancesFacts(s: seq<string>)
    ensures Distinct(FirstAppearances(s))
    ensures forall x :: x in FirstAppearances(s) <==> x in s
  {
    if |s| > 0 {
      FirstAppearancesFacts(s[..|s| - 1]);
      assert s == s[..|s| - 1] + [Last(s)];
    }
  }

  lemma {:induction false} TaskMinutesAbsent(segs: seq<SummarySegment>, task: string)
    requires task !in Tasks(segs)
    ensures TaskMinutes(segs, task) == 0.0
  {
    if |segs| > 0 {
      var init := segs[..|segs| - 1];
      assert Last(segs).dominant_task == Tasks(segs)[|segs| - 1];
      assert forall i :: 0 <= i < |init| ==> Tasks(init)[i] == Tasks(segs)[i];
      TaskMinutesAbsent(init, task);
    }
  }

  /** The dict holds one entry per distinct task, in order of first appearance. */
  lemma {:induction false} TaskSumsLabels(segs: seq<SummarySegment>)
    ensures Keys(TaskSums(segs)) == FirstAppearances(Tasks(segs))
  {
    if |segs| > 0 {
      var init := segs[..|segs| - 1];
      var x := Last(segs);
      TaskSumsLabels(init);
      FirstAppearancesFacts(Tasks(init));
      AddToFacts(TaskSums(init), x.dominant_task, x.duration_minutes);
      assert Tasks(segs)[..|segs| - 1] == Tasks(init);
      assert Last(Tasks(segs)) == x.dominant_task;
    }
  }

  lemma TaskMinutesSnoc(init: seq<SummarySegment>, x: SummarySegment, task: string)
    ensures TaskMinutes(init + [x], task) == TaskMinutes(init, task) + (if x.dominant_task == task then x.duration_minutes else 0.0)
  {
    assert (init + [x])[..|init|] == init;
  }

  /** One step of the loop keeps every entry equal to its task's minutes. */
  lemma TaskSumsValuesStep(sums: seq<(string, real)>, init: seq<SummarySegment>, x: SummarySegment)
    requires Keys(sums) == FirstAppearances(Tasks(init))
    requires Distinct(Keys(sums))
    requires forall i :: 0 <= i < |sums| ==> sums[i].1 == TaskMinutes(init, sums[i].0)
    ensures var r := AddTo(sums, x.dominant_task, x.duration_minutes);
            forall i :: 0 <= i < |r| ==> r[i].1 == TaskMinutes(init + [x], r[i].0)
  {
    var task := x.dominant_task;
    var r := AddTo(sums, task, x.duration_minutes);
    AddToFacts(sums, task, x.duration_minutes);
    forall i | 0 <= i < |r| ensures r[i].1 == TaskMinutes(init + [x], r[i].0) {
      if i < |sums| {
        TaskSumsOldEntry(sums, r, init, x, i);
      } else {
        TaskSumsNewEntry(sums, init, x);
      }
    }
  }

  /** An entry that was already there gains the segment's minutes exactly when it is its task. */
  lemma TaskSumsOldEntry(sums: seq<(string, real)>, r: seq<(string, real)>, init: seq<SummarySegment>,
                         x: SummarySegment, i: nat)
    requires i < |sums| && i < |r| && Keys(r)[i] == Keys(sums)[i]
    requires r[i].1 == sums[i].1 + (if sums[i].0 == x.dominant_task then x.duration_minutes else 0.0)
    requires sums[i].1 == TaskMinutes(init, sums[i].0)
    ensures r[i].1 == TaskMinutes(init + [x], r[i].0)
  {
    assert r[i].0 == sums[i].0;
    TaskMinutesSnoc(init, x, r[i].0);
  }

  /** A task met for the first time has the segment's minutes alone. */
  lemma TaskSumsNewEntry(sums: seq<(string, real)>, init: seq<SummarySegment>, x: SummarySegment)
    requires Keys(sums) == FirstAppearances(Tasks(init)) && Distinct(Keys(sums))
    requires x.dominant_task !in Keys(sums)
    ensures x.duration_minutes == TaskMinutes(init + [x], x.dominant_task)
  {
    FirstAppearancesFacts(Tasks(init));
    TaskMinutesAbsent(init, x.dominant_task);
    TaskMinutesSnoc(init, x, x.dominant_task);
  }

  /** Each entry of the dict holds the minutes of all segments of its task. */
  lemma {:induction false} TaskSumsValues(segs: seq<SummarySegment>)
    ensures forall i :: 0 <= i < |TaskSums(segs)| ==> TaskSums(segs)[i].1 == TaskMinutes(segs, TaskSums(segs)[i].0)
  {
    if |segs| > 0 {
      var init := segs[..|segs| - 1];
      var x := Last(segs);
      TaskSumsValues(init);
      TaskSumsLabels(init);
      FirstAppearancesFacts(Tasks(init));
      assert init + [x] == segs;
      assert TaskSums(segs) == AddTo(TaskSums(init), x.dominant_task, x.duration_minutes);
      TaskSumsValuesStep(TaskSums(init), init, x);
    }
  }

  lemma {:induction false} DistinctMultiplicity<T>(s: seq<T>, x: T)
    requires Distinct(s)
    ensures multiset(s)[x] <= 1
  {
    if |s| > 0 {
      var init := s[..|s| - 1];
      assert s == init + [Last(s)];
      DistinctMultiplicity(init, x);
      if x == Last(s) {
        assert x !in init;
      }
    }
  }

  lemma {:induction false} MultiplicityDistinct<T>(s: seq<T>)
    requires forall x :: multiset(s)[x] <= 1
    ensures Distinct(s)
  {
    if |s| > 0 {
      var init := s[..|s| - 1];
      assert s == init + [Last(s)];
      forall x ensures multiset(init)[x] <= 1 {
        assert multiset(s)[x] == multiset(init)[x] + multiset([Last(s)])[x];
      }
      MultiplicityDistinct(init);
      assert multiset(s)[Last(s)] == multiset(init)[Last(s)] + 1;
      assert Last(s) !in init;
    }
  }

  /** The totals are ordered from the largest to the smallest, and entries with equal totals
      keep the order in which their tasks first appear. */
  lemma TaskTotalsOrdered(segs: seq<SummarySegment>)
    ensures var r := TaskTotals(segs);
            && (forall i, j :: 0 <= i < j < |r| ==> r[i].1 >= r[j].1)
            && (forall v :: WithKey(r, ByTotalDescending, v) == WithKey(TaskSums(segs), ByTotalDescending, v))
  {
    var r := TaskTotals(segs);
    SortByFacts(TaskSums(segs), ByTotalDescending);
    forall i, j | 0 <= i < j < |r| ensures r[i].1 >= r[j].1 {
      assert ByTotalDescending(r[i]) <= ByTotalDescending(r[j]);
    }
  }

  lemma TaskTotalsPermutes(segs: seq<SummarySegment>)
    ensures forall i :: 0 <= i < |TaskTotals(segs)| ==> TaskTotals(segs)[i] in TaskSums(segs)
    ensures forall i :: 0 <= i < |TaskSums(segs)| ==> TaskSums(segs)[i] in TaskTotals(segs)
    ensures forall x :: multiset(TaskTotals(segs))[x] <= 1
  {
    var sums := TaskSums(segs);
    var r := TaskTotals(segs);
    SortByFacts(sums, ByTotalDescending);
    forall i | 0 <= i < |r| ensures r[i] in sums {
      assert r[i] in multiset(r);
    }
    forall i | 0 <= i < |sums| ensures sums[i] in r {
      assert sums[i] in multiset(sums);
    }
    TaskSumsLabels(segs);
    FirstAppearancesFacts(Tasks(segs));
    forall x ensures multiset(r)[x] <= 1 {
      DistinctMultiplicity(sums, x);
    }
  }

  lemma TaskTotalsDistinct(segs: seq<SummarySegment>)
    ensures var r := TaskTotals(segs);
            forall i, j :: 0 <= i < j < |r| ==> r[i].0 != r[j].0
  {
    var sums := TaskSums(segs);
    var r := TaskTotals(segs);
    TaskTotalsPermutes(segs);
    TaskSumsLabels(segs);
    FirstAppearancesFacts(Tasks(segs));
    MultiplicityDistinct(r);
    DistinctLabelsCarried(sums, r);
  }

  /** Distinct entries drawn from a list with distinct labels have distinct labels. */
  lemma DistinctLabelsCarried(sums: seq<(string, real)>, r: seq<(string, real)>)
    requires Distinct(Keys(sums)) && Distinct(r)
    requires forall i :: 0 <= i < |r| ==> r[i] in sums
    ensures forall i, j :: 0 <= i < j < |r| ==> r[i].0 != r[j].0
  {
    forall i, j | 0 <= i < j < |r| ensures r[i].0 != r[j].0 {
      var a :| 0 <= a < |sums| && sums[a] == r[i];
      var b :| 0 <= b < |sums| && sums[b] == r[j];
      assert a != b;
      if a < b {
        assert Keys(sums)[a] != Keys(sums)[b];
      } else {
        assert Keys(sums)[b] != Keys(sums)[a];
      }
    }
  }

  lemma TaskTotalsCover(segs: seq<SummarySegment>)
    ensures forall t :: t in Tasks(segs) <==> t in Keys(TaskTotals(segs))
  {
    var sums := TaskSums(segs);
    var r := TaskTotals(segs);
    TaskTotalsPermutes(segs);
    TaskSumsLabels(segs);
    FirstAppearancesFacts(Tasks(segs));
    forall t | t in Tasks(segs) ensures t in Keys(r) {
      LabelCarried(sums, r, t);
    }
    forall t | t in Keys(r) ensures t in Keys(sums) {
      LabelCarried(r, sums, t);
    }
  }

  /** A label of `a` is a label of `b` when every entry of `a` is an entry of `b`. */
  lemma LabelCarried(a: seq<(string, real)>, b: seq<(string, real)>, t: string)
    requires forall i :: 0 <= i < |a| ==> a[i] in b
    requires t in Keys(a)
    ensures t in Keys(b)
  {
    var i :| 0 <= i < |a| && Keys(a)[i] == t;
    var j :| 0 <= j < |b| && b[j] == a[i];
    assert Keys(b)[j] == t;
  }

  lemma TaskTotalsValues(segs: seq<SummarySegment>)
    ensures var r := TaskTotals(segs);
            forall i :: 0 <= i < |r| ==> r[i].1 == TaskMinutes(segs, r[i].0)
  {
    var sums := TaskSums(segs);
    var r := TaskTotals(segs);
    TaskTotalsPermutes(segs);
    TaskSumsValues(segs);
    forall i | 0 <= i < |r| ensures r[i].1 == TaskMinutes(segs, r[i].0) {
      var a :| 0 <= a < |sums| && sums[a] == r[i];
    }
  }

  /** The totals hold one entry per distinct task of the day, each the sum of its segments' minutes. */
  lemma TaskTotalsEntries(segs: seq<SummarySegment>)
    ensures var r := TaskTotals(segs);
            && (forall i, j :: 0 <= i < j < |r| ==> r[i].0 != r[j].0)
            && (forall t :: t in Tasks(segs) <==> t in Keys(r))
            && (forall i :: 0 <= i < |r| ==> r[i].1 == TaskMinutes(segs, r[i].0))
  {
    TaskTotalsDistinct(segs);
    TaskTotalsCover(segs);
    TaskTotalsValues(segs);
  }

  // ---- `to_dict` ----

  function StrList(xs: seq<string>): (j: Json)
    ensures j.JArr? && |j.items| == |xs| && forall i :: 0 <= i < |xs| ==> j.items[i] == JStr(xs[i])
  {
    JArr(seq(|xs|, i requires 0 <= i < |xs| => JStr(xs[i])))
  }

  function SegmentToDict(seg: SummarySegment): (j: Json)
    ensures j.JObj? && Keys(j.fields) == ["period", "task", "duration_minutes", "highlights"]
  {
    JObj([("period", JStr(seg.period_label)),
          ("task", JStr(seg.dominant_task)),
          ("duration_minutes", JNum(seg.duration_minutes)),
          ("highlights", StrList(seg.highlights))])
  }

  function SegmentDicts(segs: seq<SummarySegment>): (items: seq<Json>)
    ensures |items| == |segs| && forall i :: 0 <= i < |segs| ==> items[i] == SegmentToDict(segs[i])
  {
    seq(|segs|, i requires 0 <= i < |segs| => SegmentToDict(segs[i]))
  }

  /** `to_dict`: the JSON document a summary is saved as; the markdown path and the dev context are not written. */
  function ToDict(summary: DailySummary): (j: Json)
    ensures j.JObj? && Keys(j.fields) == ["date", "total_active_minutes", "segments", "blocking_issues", "follow_ups"]
  {
    JObj([("date", JStr(summary.date)),
          ("total_active_minutes", JNum(summary.total_active_minutes)),
          ("segments", JArr(SegmentDicts(summary.segments))),
          ("blocking_issues", StrList(summary.blocking_issues)),
          ("follow_ups", StrList(summary.follow_ups))])
  }
}
