/** The path from the store to the daily summary in `summarizer.main`: the rows of
    `daily_analysis` are handed to `build_daily_summary`. The day query selects nine columns
    and the loop unpacks eight names, so as written every day with an analysed capture raises
    ValueError; the corrected reading also binds the raw response, which the summary ignores. */
module SummarizerMain {
  import opened Wrappers
  import opened Times
  import opened Models
  import opened Storage
  import opened Summarizer

  /** The columns of a row of `daily_analysis`: id, time, window, application, description,
      task, confidence, tags and raw response (one per field of `JoinedRow`). */
  const DayQueryColumns: nat := 9
  /** The names the loop of `build_daily_summary` unpacks each row into. */
  const UnpackedNames: nat := 8

  /** What `a_1, ..., a_names = t` raises for a tuple `t` of `width` items. */
  function UnpackError(width: nat, names: nat): (e: Failure)
    requires width != names
    ensures e.kind == ValueError
  {
    if width > names then Failure(ValueError, "too many values to unpack")
    else Failure(ValueError, "not enough values to unpack")
  }

  /** A row of the day query as the summary reads it; the task, confidence and tags columns
      are never NULL there, and the raw response is not used. */
  function RowOf(j: JoinedRow): (r: Row)
    ensures r.ts == j.captured_at && r.description == j.description
    ensures r.task == Some(j.primary_task) && r.tags == Some(j.tags)
  {
    Row(j.id, j.captured_at, j.window_title, j.active_application, j.description,
        Some(j.primary_task), Some(j.confidence), Some(j.tags))
  }

  function RowsOf(rows: seq<JoinedRow>): (r: seq<Row>)
    ensures |r| == |rows| && forall i :: 0 <= i < |rows| ==> r[i] == RowOf(rows[i])
  {
    seq(|rows|, i requires 0 <= i < |rows| => RowOf(rows[i]))
  }

  /** `summarizer.main` from the query on, as written: no rows means no summary; otherwise
      unpacking the first nine-column row into eight names raises before anything is built. */
  function SummarizeDayAsWritten(rows: seq<JoinedRow>): (r: Result<Option<DailySummary>>)
    ensures r.Ok? <==> |rows| == 0
    ensures r.Ok? ==> r.value.None?
    ensures r.Err? ==> r.error.kind == ValueError
  {
    if |rows| == 0 then Ok(None) else Err(UnpackError(DayQueryColumns, UnpackedNames))
  }

  /** The day query returns a row iff the day has an analysed capture. */
  lemma DayRowsNonEmpty(cs: seq<StoredCapture>, a: map<int, StoredAnalysis>, d: string)
    ensures |DayRows(cs, a, d)| > 0 <==> exists c :: c in cs && IsoDate(c.captured_at) == d && c.id in a
  {
    DayRowsFacts(cs, a, d);
    if exists c :: c in cs && IsoDate(c.captured_at) == d && c.id in a {
      var c :| c in cs && IsoDate(c.captured_at) == d && c.id in a;
      assert JoinRow(c, a[c.id]) in DayRows(cs, a, d);
    } else if |DayRows(cs, a, d)| > 0 {
      assert DayRows(cs, a, d)[0] in DayRows(cs, a, d);
    }
  }

  /** As written, a day with at least one analysed capture always ends in ValueError. */
  lemma AsWrittenFailsOnEveryDay(cs: seq<StoredCapture>, a: map<int, StoredAnalysis>, d: string)
    requires exists c :: c in cs && IsoDate(c.captured_at) == d && c.id in a
    ensures var r := SummarizeDayAsWritten(DayRows(cs, a, d));
            r.Err? && r.error.kind == ValueError
  {
    DayRowsNonEmpty(cs, a, d);
  }

  /** The smallest such day: one capture, analysed, queried on its own date. */
  lemma OneCaptureDay(c: StoredCapture, s: StoredAnalysis)
    ensures var r := SummarizeDayAsWritten(DayRows([c], map[c.id := s], IsoDate(c.captured_at)));
            r.Err? && r.error.kind == ValueError
  {
    assert c in [c];
    AsWrittenFailsOnEveryDay([c], map[c.id := s], IsoDate(c.captured_at));
  }

  /** `summarizer.main` from the query on, corrected to unpack all nine columns: no rows
      means no summary, otherwise the summary of the day's rows in time order. */
  function SummarizeDay(rows: seq<JoinedRow>, date: string, intervalSeconds: int): (r: Option<DailySummary>)
    ensures r.Some? <==> |rows| > 0
    ensures r.Some? ==> r.value.date == date
  {
    if |rows| == 0 then None else Some(DailySummaryOf(RowsOf(rows), date, intervalSeconds))
  }

  /** The corrected run produces a summary iff the day has an analysed capture, counts one
      interval of active time per analysed capture of the day, and splits exactly that time
      over the segments. */
  lemma SummarizeDayTotal(cs: seq<StoredCapture>, a: map<int, StoredAnalysis>, d: string, intervalSeconds: int)
    ensures var r := SummarizeDay(DayRows(cs, a, d), d, intervalSeconds);
            && (r.Some? <==> exists c :: c in cs && IsoDate(c.captured_at) == d && c.id in a)
            && (r.Some? ==> r.value.total_active_minutes == SampleMinutes(|Joined(cs, a, d)|, intervalSeconds)
                            && r.value.total_active_minutes == SumDurations(r.value.segments))
  {
    DayRowsNonEmpty(cs, a, d);
    DayRowsFacts(cs, a, d);
    TotalIsSumOfDurations(RowsOf(DayRows(cs, a, d)), d, intervalSeconds);
  }

  /** Every blocker the corrected run lists is the stored description of an analysed capture
      of that day. */
  lemma SummarizeDayBlockers(cs: seq<StoredCapture>, a: map<int, StoredAnalysis>, d: string, intervalSeconds: int)
    requires SummarizeDay(DayRows(cs, a, d), d, intervalSeconds).Some?
    ensures forall b :: b in SummarizeDay(DayRows(cs, a, d), d, intervalSeconds).value.blocking_issues ==>
              exists c :: c in cs && IsoDate(c.captured_at) == d && c.id in a && a[c.id].description == b
  {
    var rows := DayRows(cs, a, d);
    var summary := DailySummaryOf(RowsOf(rows), d, intervalSeconds);
    DayRowsFacts(cs, a, d);
    IssuesCapped(RowsOf(rows), d, intervalSeconds);
    IssuesMembership(RowsOf(rows));
    forall b | b in summary.blocking_issues
      ensures exists c :: c in cs && IsoDate(c.captured_at) == d && c.id in a && a[c.id].description == b
    {
      assert b in Blockers(RowsOf(rows));
      var i :| 0 <= i < |rows| && IsBlocker(RowsOf(rows)[i]) && RowsOf(rows)[i].description == b;
      assert rows[i] in rows;
      var c :| c in cs && IsoDate(c.captured_at) == d && c.id in a && rows[i] == JoinRow(c, a[c.id]);
    }
  }
}
