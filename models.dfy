/** The four dataclasses of the application and their default field values. */
module Models {
  import opened Wrappers
  import opened Text
  import opened Times
  import opened JsonValue

  /** A filesystem path as its components: `root / "a" / "b"` is `root + ["a", "b"]`. */
  type Path = seq<string>

  /** `path.name`: the last component. */
  function Name(p: Path): string {
    if |p| == 0 then "" else p[|p| - 1]
  }

  /** The text a path prints as. */
  function PathText(p: Path): string {
    Join("/", p)
  }

  /** One screenshot as the observer takes it; `id` is set once the store has persisted it. */
  datatype CaptureRecord = CaptureRecord(
    captured_at: DateTime,
    image_path: Path,
    window_title: string,
    active_application: string,
    session_state: string := "active",
    hash_digest: Option<string> := None,
    id: Option<int> := None)

  /** What the vision model said about one capture. */
  datatype AnalysisResult = AnalysisResult(
    capture_id: int,
    description: string,
    primary_task: string,
    confidence: real,
    tags: seq<string> := [],
    raw_response: Option<string> := None)

  /** One contiguous run of same-task samples in a day's summary. */
  datatype SummarySegment = SummarySegment(
    period_label: string,
    highlights: seq<string>,
    dominant_task: string,
    duration_minutes: real)

  datatype DailySummary = DailySummary(
    date: string,
    segments: seq<SummarySegment>,
    blocking_issues: seq<string>,
    follow_ups: seq<string>,
    total_active_minutes: real,
    markdown_path: Option<Path> := None,
    dev_context: Option<Json> := None)

  /** A record built from the four required fields is "active", has no digest and no id yet. */
  lemma CaptureRecordDefaults(at: DateTime, path: Path, title: string, app: string)
    ensures var r := CaptureRecord(at, path, title, app);
      r.session_state == "active" && r.hash_digest == None && r.id == None
      && r.captured_at == at && r.image_path == path && r.window_title == title && r.active_application == app
  {
  }

  /** A result built from its four required fields has no tags and no raw response. */
  lemma AnalysisResultDefaults(id: int, description: string, task: string, confidence: real)
    ensures var r := AnalysisResult(id, description, task, confidence);
      r.tags == [] && r.raw_response == None
  {
  }

  /** A summary built from its five required fields has no markdown path and no dev context. */
  lemma DailySummaryDefaults(date: string, segments: seq<SummarySegment>, blocking: seq<string>, followups: seq<string>, total: real)
    ensures var s := DailySummary(date, segments, blocking, followups, total);
      s.markdown_path == None && s.dev_context == None
  {
  }
}
