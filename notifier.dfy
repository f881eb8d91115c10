/** Reading a saved summary back (`load_summary`) and the layout of the exported report
    (`render_japanese_report`). */
module Notifier {
  import opened Wrappers
  import opened Text
  import opened JsonValue
  import opened Models
  import opened Summarizer

  // ---- `load_summary` ----

  function SummaryPath(dir: Path, date: string): Path {
    dir + ["daily-report-" + date + ".json"]
  }

  function DecodeString(j: Json): (r: Result<string>)
    ensures r.Ok? <==> j.JStr?
    ensures r.Ok? ==> j == JStr(r.value)
  {
    if j.JStr? then Ok(j.s) else Err(Failure(TypeError, "expected a string"))
  }

  /** A list of strings. */
  function DecodeStrings(j: Json): (r: Result<seq<string>>)
    ensures r.Ok? <==> j.JArr? && forall i :: 0 <= i < |j.items| ==> j.items[i].JStr?
    ensures r.Ok? ==> j == StrList(r.value)
  {
    if j.JArr? then
      var r := MapAll(DecodeString, j.items);
      assert r.Ok? <==> forall i :: 0 <= i < |j.items| ==> DecodeString(j.items[i]).Ok?;
      assert r.Ok? ==> j.items == StrList(r.value).items;
      r
    else Err(Failure(TypeError, "expected a list of strings"))
  }

  /** One entry of "segments": "period" and "task" are required (a missing one is a KeyError,
      "period" first), "highlights" defaults to the empty list and "duration_minutes" to 0.0. */
  function DecodeSegment(item: Json): (r: Result<SummarySegment>)
    ensures !item.JObj? ==> r.Err? && r.error.kind == TypeError
    ensures item.JObj? && "period" !in Keys(item.fields) ==> r == Err(Failure(KeyError, "period"))
    ensures item.JObj? && "period" in Keys(item.fields) && "task" !in Keys(item.fields)
            ==> r == Err(Failure(KeyError, "task"))
    ensures r.Ok? ==> item.JObj?
                      && Get(item.fields, "period") == Some(JStr(r.value.period_label))
                      && Get(item.fields, "task") == Some(JStr(r.value.dominant_task))
                      && GetOr(item.fields, "highlights", JArr([])) == StrList(r.value.highlights)
                      && GetOr(item.fields, "duration_minutes", JNum(0.0)) == JNum(r.value.duration_minutes)
  {
    if !item.JObj? then Err(Failure(TypeError, "segment entry is not an object"))
    else
      var f := item.fields;
      var period := Get(f, "period");
      var task := Get(f, "task");
      if period.None? then Err(Failure(KeyError, "period"))
      else if task.None? then Err(Failure(KeyError, "task"))
      else if !period.value.JStr? then Err(Failure(TypeError, "period is not a string"))
      else if !task.value.JStr? then Err(Failure(TypeError, "task is not a string"))
      else
        var highlights :- DecodeStrings(GetOr(f, "highlights", JArr([])));
        var duration := GetOr(f, "duration_minutes", JNum(0.0));
        if !duration.JNum? then Err(Failure(TypeError, "duration_minutes is not a number"))
        else Ok(SummarySegment(period.value.s, highlights, task.value.s, duration.n))
  }

  /** The comprehension over `data.get("segments", [])`: iterating an empty string or an empty
      object gives no segment; a non-empty one yields strings, which cannot be indexed by key. */
  function DecodeSegments(j: Json): (r: Result<seq<SummarySegment>>)
    ensures j.JArr? ==> (r.Ok? <==> forall k :: 0 <= k < |j.items| ==> DecodeSegment(j.items[k]).Ok?)
    ensures j.JArr? && r.Ok? ==> |r.value| == |j.items|
                                 && forall k :: 0 <= k < |j.items| ==> DecodeSegment(j.items[k]) == Ok(r.value[k])
    ensures j.JStr? ==> (r.Ok? <==> j.s == "") && (r.Ok? ==> r.value == [])
    ensures j.JObj? ==> (r.Ok? <==> j.fields == []) && (r.Ok? ==> r.value == [])
    ensures j.JNull? || j.JNum? || j.JBool? ==> r.Err? && r.error.kind == TypeError
  {
    match j
    case JArr(items) => MapAll(DecodeSegment, items)
    case JStr(s) => if |s| == 0 then Ok([]) else Err(Failure(TypeError, "string indices must be integers"))
    case JObj(fields) => if |fields| == 0 then Ok([]) else Err(Failure(TypeError, "string indices must be integers"))
    case _ => Err(Failure(TypeError, "segments are not iterable"))
  }

  /** The summary a decoded document describes; missing keys take their defaults. */
  function SummaryFromJson(data: Json, date: string, parseFloat: string -> Option<real>): (r: Result<DailySummary>)
    ensures !data.JObj? ==> r.Err? && r.error.kind == AttributeError
    ensures r.Ok? <==> data.JObj?
                       && DecodeSegments(GetOr(data.fields, "segments", JArr([]))).Ok?
                       && GetOr(data.fields, "date", JStr(date)).JStr?
                       && DecodeStrings(GetOr(data.fields, "blocking_issues", JArr([]))).Ok?
                       && DecodeStrings(GetOr(data.fields, "follow_ups", JArr([]))).Ok?
                       && PyFloat(parseFloat, GetOr(data.fields, "total_active_minutes", JNum(0.0))).Ok?
    ensures r.Ok? ==> && GetOr(data.fields, "date", JStr(date)) == JStr(r.value.date)
                      && DecodeSegments(GetOr(data.fields, "segments", JArr([]))) == Ok(r.value.segments)
                      && GetOr(data.fields, "blocking_issues", JArr([])) == StrList(r.value.blocking_issues)
                      && GetOr(data.fields, "follow_ups", JArr([])) == StrList(r.value.follow_ups)
                      && PyFloat(parseFloat, GetOr(data.fields, "total_active_minutes", JNum(0.0))) == Ok(r.value.total_active_minutes)
                      && r.value.markdown_path.None? && r.value.dev_context.None?
  {
    if !data.JObj? then Err(Failure(AttributeError, "'get' is not an attribute of the decoded value"))
    else
      var f := data.fields;
      var segments :- DecodeSegments(GetOr(f, "segments", JArr([])));
      var day := GetOr(f, "date", JStr(date));
      if !day.JStr? then Err(Failure(TypeError, "date is not a string"))
      else
        var blocking :- DecodeStrings(GetOr(f, "blocking_issues", JArr([])));
        var followUps :- DecodeStrings(GetOr(f, "follow_ups", JArr([])));
        var total :- PyFloat(parseFloat, GetOr(f, "total_active_minutes", JNum(0.0)));
        Ok(DailySummary(day.s, segments, blocking, followUps, total, markdown_path := None))
  }

  /** `load_summary`. `fileExists` and `readJson` stand in for the filesystem and for `json.loads`
      of the file's text (None when the text is not JSON); `parseFloat` for `float` on text. */
  function LoadSummary(dir: Path, date: string, fileExists: Path -> bool, readJson: Path -> Option<Json>,
                       parseFloat: string -> Option<real>): (r: Result<DailySummary>)
    ensures !fileExists(SummaryPath(dir, date)) ==> r.Err? && r.error.kind == NotFound
    ensures fileExists(SummaryPath(dir, date)) && readJson(SummaryPath(dir, date)).None?
            ==> r.Err? && r.error.kind == ValueError
    ensures fileExists(SummaryPath(dir, date)) && readJson(SummaryPath(dir, date)).Some?
            ==> r == SummaryFromJson(readJson(SummaryPath(dir, date)).value, date, parseFloat)
  {
    var path := SummaryPath(dir, date);
    if !fileExists(path) then Err(Failure(NotFound, "Summary JSON not found: " + PathText(path)))
    else
      match readJson(path)
      case None => Err(Failure(ValueError, "invalid JSON in " + PathText(path)))
      case Some(data) => SummaryFromJson(data, date, parseFloat)
  }

  lemma StringsRoundTrip(xs: seq<string>)
    ensures DecodeStrings(StrList(xs)) == Ok(xs)
  {
    MapAllOk(DecodeString, StrList(xs).items, xs);
  }

  lemma SegmentDictPeriodTask(seg: SummarySegment)
    ensures Get(SegmentToDict(seg).fields, "period") == Some(JStr(seg.period_label))
    ensures Get(SegmentToDict(seg).fields, "task") == Some(JStr(seg.dominant_task))
  {
    var f := SegmentToDict(seg).fields;
    assert Get(f, "task") == Get(f[1..], "task");
  }

  lemma SegmentDictDuration(seg: SummarySegment)
    ensures Get(SegmentToDict(seg).fields, "duration_minutes") == Some(JNum(seg.duration_minutes))
  {
    var f := SegmentToDict(seg).fields;
    assert Get(f, "duration_minutes") == Get(f[1..], "duration_minutes") == Get(f[1..][1..], "duration_minutes");
  }

  lemma SegmentDictHighlights(seg: SummarySegment)
    ensures Get(SegmentToDict(seg).fields, "highlights") == Some(StrList(seg.highlights))
  {
    var f := SegmentToDict(seg).fields;
    assert Get(f, "highlights") == Get(f[1..], "highlights") == Get(f[1..][1..], "highlights")
        == Get(f[1..][1..][1..], "highlights");
  }

  lemma SegmentRoundTrip(seg: SummarySegment)
    ensures DecodeSegment(SegmentToDict(seg)) == Ok(seg)
  {
    StringsRoundTrip(seg.highlights);
    SegmentDictPeriodTask(seg);
    SegmentDictDuration(seg);
    SegmentDictHighlights(seg);
  }

  lemma SegmentItemsRoundTrip(segs: seq<SummarySegment>)
    ensures MapAll(DecodeSegment, SegmentDicts(segs)) == Ok(segs)
  {
    var items := SegmentDicts(segs);
    forall i | 0 <= i < |segs| ensures DecodeSegment(items[i]) == Ok(segs[i]) {
      SegmentRoundTrip(segs[i]);
    }
    MapAllOk(DecodeSegment, items, segs);
  }

  lemma ToDictDateSegments(s: DailySummary)
    ensures Get(ToDict(s).fields, "date") == Some(JStr(s.date))
    ensures Get(ToDict(s).fields, "segments")
            == Some(JArr(SegmentDicts(s.segments)))
  {
    var f := ToDict(s).fields;
    assert Get(f, "segments") == Get(f[1..], "segments") == Get(f[1..][1..], "segments");
  }

  lemma ToDictTotal(s: DailySummary)
    ensures Get(ToDict(s).fields, "total_active_minutes") == Some(JNum(s.total_active_minutes))
  {
    var f := ToDict(s).fields;
    assert Get(f, "total_active_minutes") == Get(f[1..], "total_active_minutes");
  }

  lemma ToDictIssues(s: DailySummary)
    ensures Get(ToDict(s).fields, "blocking_issues") == Some(StrList(s.blocking_issues))
    ensures Get(ToDict(s).fields, "follow_ups") == Some(StrList(s.follow_ups))
  {
    var f := ToDict(s).fields;
    assert Get(f, "blocking_issues") == Get(f[1..], "blocking_issues") == Get(f[1..][1..], "blocking_issues")
        == Get(f[1..][1..][1..], "blocking_issues");
    assert Get(f, "follow_ups") == Get(f[1..], "follow_ups") == Get(f[1..][1..], "follow_ups")
        == Get(f[1..][1..][1..], "follow_ups") == Get(f[1..][1..][1..][1..], "follow_ups");
  }

  lemma ToDictSegmentsDecode(s: DailySummary)
    ensures DecodeSegments(GetOr(ToDict(s).fields, "segments", JArr([]))) == Ok(s.segments)
  {
    ToDictDateSegments(s);
    SegmentItemsRoundTrip(s.segments);
  }

  lemma ToDictScalarsDecode(s: DailySummary, date: string, parseFloat: string -> Option<real>)
    ensures GetOr(ToDict(s).fields, "date", JStr(date)) == JStr(s.date)
    ensures PyFloat(parseFloat, GetOr(ToDict(s).fields, "total_active_minutes", JNum(0.0))) == Ok(s.total_active_minutes)
  {
    ToDictDateSegments(s);
    ToDictTotal(s);
  }

  lemma ToDictIssuesDecode(s: DailySummary)
    ensures DecodeStrings(GetOr(ToDict(s).fields, "blocking_issues", JArr([]))) == Ok(s.blocking_issues)
    ensures DecodeStrings(GetOr(ToDict(s).fields, "follow_ups", JArr([]))) == Ok(s.follow_ups)
  {
    ToDictIssues(s);
    StringsRoundTrip(s.blocking_issues);
    StringsRoundTrip(s.follow_ups);
  }

  lemma SummaryFromToDict(s: DailySummary, date: string, parseFloat: string -> Option<real>)
    ensures SummaryFromJson(ToDict(s), date, parseFloat) == Ok(s.(markdown_path := None, dev_context := None))
  {
    ToDictSegmentsDecode(s);
    ToDictScalarsDecode(s, date, parseFloat);
    ToDictIssuesDecode(s);
  }

  /** Loading the document `to_dict` wrote gives the summary back, without its markdown path
      and dev context; the stored date wins over the date asked for. */
  lemma LoadSummaryInvertsToDict(dir: Path, date: string, fileExists: Path -> bool, readJson: Path -> Option<Json>,
                                 parseFloat: string -> Option<real>, s: DailySummary)
    requires fileExists(SummaryPath(dir, date))
    requires readJson(SummaryPath(dir, date)) == Some(ToDict(s))
    ensures LoadSummary(dir, date, fileExists, readJson, parseFloat) == Ok(s.(markdown_path := None, dev_context := None))
  {
    SummaryFromToDict(s, date, parseFloat);
  }

  /** An empty document gives the requested date, no segments, no issues and no active time. */
  lemma LoadSummaryDefaults(dir: Path, date: string, fileExists: Path -> bool, readJson: Path -> Option<Json>,
                            parseFloat: string -> Option<real>)
    requires fileExists(SummaryPath(dir, date))
    requires readJson(SummaryPath(dir, date)) == Some(JObj([]))
    ensures LoadSummary(dir, date, fileExists, readJson, parseFloat) == Ok(DailySummary(date, [], [], [], 0.0))
  {
  }

  /** A missing file is reported as not found. */
  lemma LoadSummaryMissing(dir: Path, date: string, fileExists: Path -> bool, readJson: Path -> Option<Json>,
                           parseFloat: string -> Option<real>)
    requires !fileExists(SummaryPath(dir, date))
    ensures LoadSummary(dir, date, fileExists, readJson, parseFloat).Err?
    ensures LoadSummary(dir, date, fileExists, readJson, parseFloat).error.kind == NotFound
  {
  }

  /** A segment entry without "period" or without "task" is a key error. */
  lemma SegmentKeysRequired(fields: seq<(string, Json)>)
    requires "period" !in Keys(fields) || "task" !in Keys(fields)
    ensures DecodeSegment(JObj(fields)) == Err(Failure(KeyError, if "period" !in Keys(fields) then "period" else "task"))
  {
  }

  /** A segment entry that cannot be decoded makes the whole load fail. */
  lemma LoadSummaryBadSegment(dir: Path, date: string, fileExists: Path -> bool, readJson: Path -> Option<Json>,
                              parseFloat: string -> Option<real>, items: seq<Json>, k: nat)
    requires fileExists(SummaryPath(dir, date))
    requires readJson(SummaryPath(dir, date)).Some? && readJson(SummaryPath(dir, date)).value.JObj?
    requires Get(readJson(SummaryPath(dir, date)).value.fields, "segments") == Some(JArr(items))
    requires k < |items| && DecodeSegment(items[k]).Err?
    ensures LoadSummary(dir, date, fileExists, readJson, parseFloat).Err?
  {
    MapAllErr(DecodeSegment, items, k);
  }

  // ---- `render_japanese_report` ----

  const TotalsHeading: string := "## タスク別累計時間"
  const TimetableHeading: string := "## タイムテーブル"
  const NotesHeading: string := "## 詳細メモ"
  const BlockersHeading: string := "## ブロッカー"
  const FollowUpsHeading: string := "## フォローアップ"
  const Footer: string := "Generated automatically by Miru-Log"

  function HeaderLines(s: DailySummary, fmt1: real -> string): seq<string> {
    ["# " + ReplaceChar(s.date, '-', '/') + " の Miru-Log 日報",
     "",
     "- アクティブ時間: **" + fmt1(s.total_active_minutes) + " 分**",
     "- セグメント数: " + NatToString(|s.segments|),
     ""]
  }

  /** `summary.total_active_minutes or 1.0`. */
  function RatioBase(total: real): (r: real)
    ensures r != 0.0
    ensures total != 0.0 ==> r == total
  {
    if total != 0.0 then total else 1.0
  }

  function TotalsRow(entry: (string, real), base: real, fmt1: real -> string): string
    requires base != 0.0
  {
    "| " + entry.0 + " | " + fmt1(entry.1) + " | " + fmt1(entry.1 / base * 100.0) + "% |"
  }

  function TotalsRows(totals: seq<(string, real)>, base: real, fmt1: real -> string): seq<string>
    requires base != 0.0
  {
    if |totals| == 0 then [] else TotalsRows(totals[..|totals| - 1], base, fmt1) + [TotalsRow(Last(totals), base, fmt1)]
  }

  function TotalsSection(totals: seq<(string, real)>, base: real, fmt1: real -> string): seq<string>
    requires base != 0.0
  {
    [TotalsHeading, "| タスク | 合計時間 (分) | 割合 |", "| --- | ---: | ---: |"]
    + TotalsRows(totals, base, fmt1)
    + (if |totals| == 0 then ["| (データ無し) | 0 | 0% |"] else [])
    + [""]
  }

  function HighlightCell(seg: SummarySegment): string {
    if |seg.highlights| > 0 then Join("<br>", seg.highlights) else "-"
  }

  function TimetableRow(seg: SummarySegment, fmt0: real -> string): string {
    "| " + seg.period_label + " | " + seg.dominant_task + " | " + HighlightCell(seg) + " | " + fmt0(seg.duration_minutes) + "m |"
  }

  function TimetableRows(segs: seq<SummarySegment>, fmt0: real -> string): seq<string> {
    if |segs| == 0 then [] else TimetableRows(segs[..|segs| - 1], fmt0) + [TimetableRow(Last(segs), fmt0)]
  }

  function TimetableSection(segs: seq<SummarySegment>, fmt0: real -> string): seq<string> {
    [TimetableHeading, "| 時間帯 | タスク | 主要アクション | 所要時間 |", "| --- | --- | --- | ---: |"]
    + TimetableRows(segs, fmt0)
    + (if |segs| == 0 then ["| (データ無し) | - | - | 0m |"] else [])
    + [""]
  }

  function Bullets(items: seq<string>): seq<string> {
    if |items| == 0 then [] else Bullets(items[..|items| - 1]) + ["- " + Last(items)]
  }

  function NoteTitle(seg: SummarySegment): string {
    "### " + seg.period_label + " — " + seg.dominant_task
  }

  function NoteBlock(seg: SummarySegment): seq<string> {
    [NoteTitle(seg)] + Bullets(seg.highlights) + (if |seg.highlights| == 0 then ["- 活動記録なし"] else []) + [""]
  }

  function NoteBlocks(segs: seq<SummarySegment>): seq<string> {
    if |segs| == 0 then [] else NoteBlocks(segs[..|segs| - 1]) + NoteBlock(Last(segs))
  }

  function NotesSection(segs: seq<SummarySegment>): seq<string> {
    [NotesHeading] + (if |segs| > 0 then NoteBlocks(segs) else ["- 活動記録がありません", ""])
  }

  /** A titled bullet list, left out entirely when there is nothing to list. */
  function ListSection(title: string, items: seq<string>): seq<string> {
    if |items| == 0 then [] else [title] + Bullets(items) + [""]
  }

  /** The lines of the exported report, given the task totals of the summary. */
  function ReportLines(s: DailySummary, totals: seq<(string, real)>, fmt1: real -> string, fmt0: real -> string): (r: seq<string>)
    ensures |r| >= 2 && r[0] == HeaderLines(s, fmt1)[0] && r[|r| - 2..] == ["---", Footer]
  {
    HeaderLines(s, fmt1)
    + TotalsSection(totals, RatioBase(s.total_active_minutes), fmt1)
    + TimetableSection(s.segments, fmt0)
    + NotesSection(s.segments)
    + ListSection(BlockersHeading, s.blocking_issues)
    + ListSection(FollowUpsHeading, s.follow_ups)
    + ["---", Footer]
  }

  lemma InitSnoc<T>(s: seq<T>, i: nat)
    requires i < |s|
    ensures s[..i + 1][..i] == s[..i] && Last(s[..i + 1]) == s[i]
  {
  }

  /** The task-total table: one row per entry, or the no-data row when there is none. */
  method AppendTotals(lines: seq<string>, totals: seq<(string, real)>, base: real, fmt1: real -> string)
    returns (out: seq<string>)
    requires base != 0.0
    ensures out == lines + TotalsSection(totals, base, fmt1)
  {
    out := lines + [TotalsHeading, "| タスク | 合計時間 (分) | 割合 |", "| --- | ---: | ---: |"];
    ghost var before := out;
    for i := 0 to |totals|
      invariant out == before + TotalsRows(totals[..i], base, fmt1)
    {
      InitSnoc(totals, i);
      out := out + [TotalsRow(totals[i], base, fmt1)];
    }
    assert totals[..|totals|] == totals;
    if |totals| == 0 {
      out := out + ["| (データ無し) | 0 | 0% |"];
    }
    out := out + [""];
  }

  /** The timetable: one row per segment, or the no-data row when there is none. */
  method AppendTimetable(lines: seq<string>, segs: seq<SummarySegment>, fmt0: real -> string) returns (out: seq<string>)
    ensures out == lines + TimetableSection(segs, fmt0)
  {
    out := lines + [TimetableHeading, "| 時間帯 | タスク | 主要アクション | 所要時間 |", "| --- | --- | --- | ---: |"];
    ghost var before := out;
    for i := 0 to |segs|
      invariant out == before + TimetableRows(segs[..i], fmt0)
    {
      InitSnoc(segs, i);
      out := out + [TimetableRow(segs[i], fmt0)];
    }
    assert segs[..|segs|] == segs;
    if |segs| == 0 {
      out := out + ["| (データ無し) | - | - | 0m |"];
    }
    out := out + [""];
  }

  method AppendBullets(lines: seq<string>, items: seq<string>) returns (out: seq<string>)
    ensures out == lines + Bullets(items)
  {
    out := lines;
    for i := 0 to |items|
      invariant out == lines + Bullets(items[..i])
    {
      InitSnoc(items, i);
      out := out + ["- " + items[i]];
    }
    assert items[..|items|] == items;
  }

  /** The notes: per segment a title, its highlights (or a no-record line) and a blank line. */
  method AppendNotes(lines: seq<string>, segs: seq<SummarySegment>) returns (out: seq<string>)
    ensures out == lines + NotesSection(segs)
  {
    out := lines + [NotesHeading];
    if |segs| > 0 {
      ghost var before := out;
      for k := 0 to |segs|
        invariant out == before + NoteBlocks(segs[..k])
      {
        InitSnoc(segs, k);
        ghost var start := out;
        out := AppendNoteBlock(out, segs[k]);
        assert out == before + (NoteBlocks(segs[..k]) + NoteBlock(segs[k]));
      }
      assert segs[..|segs|] == segs;
    } else {
      out := out + ["- 活動記録がありません", ""];
    }
  }

  /** One segment's note: its title, its highlights or the no-record line, and a blank line. */
  method AppendNoteBlock(lines: seq<string>, seg: SummarySegment) returns (out: seq<string>)
    ensures out == lines + NoteBlock(seg)
  {
    out := lines + [NoteTitle(seg)];
    out := AppendBullets(out, seg.highlights);
    if |seg.highlights| == 0 {
      out := out + ["- 活動記録なし"];
    }
    out := out + [""];
  }

  /** A titled bullet list, written only when there is something to list. */
  method AppendList(lines: seq<string>, title: string, items: seq<string>) returns (out: seq<string>)
    ensures out == lines + ListSection(title, items)
  {
    out := lines;
    if |items| > 0 {
      out := out + [title];
      out := AppendBullets(out, items);
      out := out + [""];
    }
  }

  /** `render_japanese_report`: appends the report line by line and joins the lines with newlines.
      `fmt1` and `fmt0` stand in for the `:.1f` and `:.0f` number formats. */
  method RenderJapaneseReport(summary: DailySummary, fmt1: real -> string, fmt0: real -> string) returns (text: string)
    ensures text == Join("\n", ReportLines(summary, TaskTotals(summary.segments), fmt1, fmt0))
  {
    var lines: seq<string> := [];
    lines := lines + ["# " + ReplaceChar(summary.date, '-', '/') + " の Miru-Log 日報"];
    lines := lines + [""];
    lines := lines + ["- アクティブ時間: **" + fmt1(summary.total_active_minutes) + " 分**"];
    lines := lines + ["- セグメント数: " + NatToString(|summary.segments|)];
    lines := lines + [""];
    assert lines == HeaderLines(summary, fmt1);
    var totals := AggregateTaskTotals(summary);
    lines := AppendTotals(lines, totals, RatioBase(summary.total_active_minutes), fmt1);
    lines := AppendTimetable(lines, summary.segments, fmt0);
    lines := AppendNotes(lines, summary.segments);
    lines := AppendList(lines, BlockersHeading, summary.blocking_issues);
    lines := AppendList(lines, FollowUpsHeading, summary.follow_ups);
    lines := lines + ["---", Footer];
    text := Join("\n", lines);
  }

  // ---- the section structure of the report ----

  /** A second-level markdown heading. */
  predicate IsHeading(line: string) {
    |line| >= 3 && line[..3] == "## "
  }

  /** The headings of `lines`, in order. */
  function Headings(lines: seq<string>): seq<string> {
    if |lines| == 0 then [] else Headings(lines[..|lines| - 1]) + (if IsHeading(Last(lines)) then [Last(lines)] else [])
  }

  lemma {:induction false} HeadingsAppend(a: seq<string>, b: seq<string>)
    ensures Headings(a + b) == Headings(a) + Headings(b)
    decreases |b|
  {
    if |b| == 0 {
      assert a + b == a;
    } else {
      HeadingsAppend(a, b[..|b| - 1]);
      assert (a + b)[..|a + b| - 1] == a + b[..|b| - 1];
    }
  }

  lemma {:induction false} NoHeadings(lines: seq<string>)
    requires forall i :: 0 <= i < |lines| ==> !IsHeading(lines[i])
    ensures Headings(lines) == []
  {
    if |lines| > 0 {
      NoHeadings(lines[..|lines| - 1]);
    }
  }

  /** A line that starts with `c` (other than '#') is not a heading. */
  lemma PlainLine(c: char, rest: string)
    requires c != '#'
    ensures !IsHeading([c] + rest)
  {
    assert ([c] + rest)[0] == c;
  }

  lemma {:induction false} BulletsNoHeadings(items: seq<string>)
    ensures Headings(Bullets(items)) == []
  {
    if |items| > 0 {
      BulletsNoHeadings(items[..|items| - 1]);
      HeadingsAppend(Bullets(items[..|items| - 1]), ["- " + Last(items)]);
      PlainLine('-', " " + Last(items));
      assert "- " + Last(items) == ['-'] + (" " + Last(items));
    }
  }

  lemma {:induction false} TotalsRowsNoHeadings(totals: seq<(string, real)>, base: real, fmt1: real -> string)
    requires base != 0.0
    ensures Headings(TotalsRows(totals, base, fmt1)) == []
  {
    if |totals| > 0 {
      var init := totals[..|totals| - 1];
      var row := TotalsRow(Last(totals), base, fmt1);
      TotalsRowsNoHeadings(init, base, fmt1);
      HeadingsAppend(TotalsRows(init, base, fmt1), [row]);
      assert row[0] == '|';
      PlainLine('|', row[1..]);
      assert row == ['|'] + row[1..];
    }
  }

  lemma {:induction false} TimetableRowsNoHeadings(segs: seq<SummarySegment>, fmt0: real -> string)
    ensures Headings(TimetableRows(segs, fmt0)) == []
  {
    if |segs| > 0 {
      var init := segs[..|segs| - 1];
      var row := TimetableRow(Last(segs), fmt0);
      TimetableRowsNoHeadings(init, fmt0);
      HeadingsAppend(TimetableRows(init, fmt0), [row]);
      assert row[0] == '|';
      PlainLine('|', row[1..]);
      assert row == ['|'] + row[1..];
    }
  }

  lemma NoteBlockNoHeadings(seg: SummarySegment)
    ensures Headings(NoteBlock(seg)) == []
  {
    var title := NoteTitle(seg);
    assert title[2] == '#';
    var tail := (if |seg.highlights| == 0 then ["- 活動記録なし"] else []) + [""];
    assert NoteBlock(seg) == [title] + Bullets(seg.highlights) + tail;
    assert forall i :: 0 <= i < |tail| ==> tail[i] == "" || tail[i][0] == '-';
    NoHeadings(tail);
    NoHeadings([title]);
    BulletsNoHeadings(seg.highlights);
    HeadingsAppend([title] + Bullets(seg.highlights), tail);
    HeadingsAppend([title], Bullets(seg.highlights));
  }

  lemma {:induction false} NoteBlocksNoHeadings(segs: seq<SummarySegment>)
    ensures Headings(NoteBlocks(segs)) == []
  {
    if |segs| > 0 {
      NoteBlocksNoHeadings(segs[..|segs| - 1]);
      NoteBlockNoHeadings(Last(segs));
      HeadingsAppend(NoteBlocks(segs[..|segs| - 1]), NoteBlock(Last(segs)));
    }
  }

  lemma HeaderNoHeadings(s: DailySummary, fmt1: real -> string)
    ensures Headings(HeaderLines(s, fmt1)) == []
  {
    var h := HeaderLines(s, fmt1);
    assert h[0][1] == ' ' && h[2][0] == '-' && h[3][0] == '-';
    NoHeadings(h);
  }

  /** The heading line followed by lines none of which is a heading. */
  lemma {:induction false} OneHeading(title: string, rest: seq<string>)
    requires IsHeading(title) && Headings(rest) == []
    ensures Headings([title] + rest) == [title]
  {
    HeadingsAppend([title], rest);
    assert Headings([title]) == [title] by {
      assert [title][..0] == [];
    }
  }

  lemma TotalsSectionHeadings(totals: seq<(string, real)>, base: real, fmt1: real -> string)
    requires base != 0.0
    ensures Headings(TotalsSection(totals, base, fmt1)) == [TotalsHeading]
  {
    var tt := ["| タスク | 合計時間 (分) | 割合 |", "| --- | ---: | ---: |"];
    var tTail := (if |totals| == 0 then ["| (データ無し) | 0 | 0% |"] else []) + [""];
    var rows := TotalsRows(totals, base, fmt1);
    assert TotalsSection(totals, base, fmt1) == [TotalsHeading] + (tt + rows + tTail);
    assert tt[0][0] == '|' && tt[1][0] == '|';
    NoHeadings(tt);
    assert forall i :: 0 <= i < |tTail| ==> tTail[i] == "" || tTail[i][0] == '|';
    NoHeadings(tTail);
    TotalsRowsNoHeadings(totals, base, fmt1);
    HeadingsAppend(tt, rows);
    HeadingsAppend(tt + rows, tTail);
    OneHeading(TotalsHeading, tt + rows + tTail);
  }

  lemma TimetableSectionHeadings(segs: seq<SummarySegment>, fmt0: real -> string)
    ensures Headings(TimetableSection(segs, fmt0)) == [TimetableHeading]
  {
    var mt := ["| 時間帯 | タスク | 主要アクション | 所要時間 |", "| --- | --- | --- | ---: |"];
    var mTail := (if |segs| == 0 then ["| (データ無し) | - | - | 0m |"] else []) + [""];
    var rows := TimetableRows(segs, fmt0);
    assert TimetableSection(segs, fmt0) == [TimetableHeading] + (mt + rows + mTail);
    assert mt[0][0] == '|' && mt[1][0] == '|';
    NoHeadings(mt);
    assert forall i :: 0 <= i < |mTail| ==> mTail[i] == "" || mTail[i][0] == '|';
    NoHeadings(mTail);
    TimetableRowsNoHeadings(segs, fmt0);
    HeadingsAppend(mt, rows);
    HeadingsAppend(mt + rows, mTail);
    OneHeading(TimetableHeading, mt + rows + mTail);
  }

  lemma NotesSectionHeadings(segs: seq<SummarySegment>)
    ensures Headings(NotesSection(segs)) == [NotesHeading]
  {
    var rest := if |segs| > 0 then NoteBlocks(segs) else ["- 活動記録がありません", ""];
    if |segs| > 0 {
      NoteBlocksNoHeadings(segs);
    } else {
      assert rest[0][0] == '-';
      NoHeadings(rest);
    }
    OneHeading(NotesHeading, rest);
  }

  lemma ListSectionHeadings(title: string, items: seq<string>)
    requires IsHeading(title)
    ensures Headings(ListSection(title, items)) == (if |items| > 0 then [title] else [])
  {
    if |items| > 0 {
      BulletsNoHeadings(items);
      NoHeadings([""]);
      HeadingsAppend(Bullets(items), [""]);
      OneHeading(title, Bullets(items) + [""]);
      assert ListSection(title, items) == [title] + (Bullets(items) + [""]);
    }
  }

  /** The report always has the totals, timetable and notes sections, and has the blocker and
      follow-up sections exactly when those lists are non-empty. */
  lemma ReportSections(s: DailySummary, totals: seq<(string, real)>, fmt1: real -> string, fmt0: real -> string)
    ensures Headings(ReportLines(s, totals, fmt1, fmt0))
            == [TotalsHeading] + [TimetableHeading] + [NotesHeading]
               + (if |s.blocking_issues| > 0 then [BlockersHeading] else [])
               + (if |s.follow_ups| > 0 then [FollowUpsHeading] else [])
  {
    var a := HeaderLines(s, fmt1);
    var b := TotalsSection(totals, RatioBase(s.total_active_minutes), fmt1);
    var c := TimetableSection(s.segments, fmt0);
    var d := NotesSection(s.segments);
    var e := ListSection(BlockersHeading, s.blocking_issues);
    var f := ListSection(FollowUpsHeading, s.follow_ups);
    var g := ["---", Footer];
    HeaderNoHeadings(s, fmt1);
    TotalsSectionHeadings(totals, RatioBase(s.total_active_minutes), fmt1);
    TimetableSectionHeadings(s.segments, fmt0);
    NotesSectionHeadings(s.segments);
    ListTitlesAreHeadings();
    ListSectionHeadings(BlockersHeading, s.blocking_issues);
    ListSectionHeadings(FollowUpsHeading, s.follow_ups);
    FooterNoHeadings();
    HeadingsOfSections(a, b, c, d, e, f, g);
  }

  lemma ListTitlesAreHeadings()
    ensures IsHeading(BlockersHeading) && IsHeading(FollowUpsHeading)
  {
    var b := BlockersHeading;
    var f := FollowUpsHeading;
    assert b[0] == '#' && b[1] == '#' && b[2] == ' ';
    assert f[0] == '#' && f[1] == '#' && f[2] == ' ';
    assert b[..3] == "## " && f[..3] == "## ";
  }

  lemma HeadingsOfSections(a: seq<string>, b: seq<string>, c: seq<string>, d: seq<string>,
                           e: seq<string>, f: seq<string>, g: seq<string>)
    requires Headings(a) == [] && Headings(g) == []
    ensures Headings(a + b + c + d + e + f + g)
            == Headings(b) + Headings(c) + Headings(d) + Headings(e) + Headings(f)
  {
    var x1 := a + b;
    HeadingsAppend(a, b);
    assert Headings(x1) == Headings(b);
    var x2 := x1 + c;
    HeadingsAppend(x1, c);
    var x3 := x2 + d;
    HeadingsAppend(x2, d);
    var x4 := x3 + e;
    HeadingsAppend(x3, e);
    var x5 := x4 + f;
    HeadingsAppend(x4, f);
    HeadingsAppend(x5, g);
    assert Headings(x5 + g) == Headings(x5);
  }

  lemma FooterNoHeadings()
    ensures Headings(["---", Footer]) == []
  {
    PlainLine('-', "--");
    PlainLine('G', Footer[1..]);
    assert "---" == ['-'] + "--";
    assert Footer == ['G'] + Footer[1..];
    NoHeadings(["---", Footer]);
  }

  /** The report ends with a horizontal rule and the footer line. */
  lemma ReportEnding(s: DailySummary, totals: seq<(string, real)>, fmt1: real -> string, fmt0: real -> string)
    ensures var lines := ReportLines(s, totals, fmt1, fmt0);
            |lines| >= 2 && lines[|lines| - 2] == "---" && lines[|lines| - 1] == Footer
  {
  }

  lemma {:induction false} TimetableRowsAt(segs: seq<SummarySegment>, fmt0: real -> string)
    ensures |TimetableRows(segs, fmt0)| == |segs|
    ensures forall i :: 0 <= i < |segs| ==> TimetableRows(segs, fmt0)[i] == TimetableRow(segs[i], fmt0)
  {
    if |segs| > 0 {
      TimetableRowsAt(segs[..|segs| - 1], fmt0);
    }
  }

  /** The timetable has one row per segment, in segment order, and the no-data row only when
      there are no segments. */
  lemma TimetableRowsPerSegment(segs: seq<SummarySegment>, fmt0: real -> string)
    ensures var t := TimetableSection(segs, fmt0);
            && |t| == 4 + (if |segs| == 0 then 1 else |segs|)
            && (forall i :: 0 <= i < |segs| ==> t[3 + i] == TimetableRow(segs[i], fmt0))
            && (|segs| == 0 ==> t[3] == "| (データ無し) | - | - | 0m |")
  {
    TimetableRowsAt(segs, fmt0);
  }
}
