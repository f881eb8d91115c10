/** The SQLite observation store (mirulog/storage.py) as an in-memory pair of tables: the
    captures, in insertion order with AUTOINCREMENT ids, and the analysis rows keyed by capture
    id. The declared foreign key is never enabled, so an analysis row may name a capture that
    does not exist (the analysers use -1 for an unsaved record). */
module Storage {
  import opened Wrappers
  import opened Text
  import opened Times
  import opened Models
  import opened Sorting

  /** A row of `captures`. The text columns other than the time and path are nullable. */
  datatype StoredCapture = StoredCapture(
    id: int,
    captured_at: DateTime,
    image_path: Path,
    window_title: Option<string>,
    active_application: Option<string>,
    session_state: Option<string>,
    hash_digest: Option<string>)

  /** A row of `analysis` without its key; the tags are one comma-joined text. */
  datatype StoredAnalysis = StoredAnalysis(
    description: string,
    primary_task: string,
    confidence: real,
    tags: string,
    raw_response: Option<string>)

  /** A row of the day query: the capture's id, time, window and application, then the five
      analysis columns. */
  datatype JoinedRow = JoinedRow(
    id: int,
    captured_at: DateTime,
    window_title: Option<string>,
    active_application: Option<string>,
    description: string,
    primary_task: string,
    confidence: real,
    tags: string,
    raw_response: Option<string>)

  /** The row `add_capture` inserts for a record under a new id. */
  function StoreCapture(id: int, r: CaptureRecord): StoredCapture {
    StoredCapture(id, r.captured_at, r.image_path, Some(r.window_title), Some(r.active_application),
                  Some(r.session_state), r.hash_digest)
  }

  /** The row `save_analysis` writes for a result. */
  function StoreAnalysis(r: AnalysisResult): StoredAnalysis {
    StoredAnalysis(r.description, r.primary_task, r.confidence, Join(",", r.tags), r.raw_response)
  }

  /** `CaptureRecord(...)` of a pending row: a null or empty title or application reads as "",
      a null or empty session state as "active". */
  function ToRecord(c: StoredCapture): (r: CaptureRecord)
    ensures r.id == Some(c.id) && r.captured_at == c.captured_at && r.image_path == c.image_path
    ensures r.hash_digest == c.hash_digest
    ensures c.window_title.None? ==> r.window_title == ""
    ensures c.active_application.None? ==> r.active_application == ""
    ensures c.session_state.None? || c.session_state == Some("") ==> r.session_state == "active"
  {
    CaptureRecord(
      captured_at := c.captured_at,
      image_path := c.image_path,
      window_title := c.window_title.GetOr(""),
      active_application := c.active_application.GetOr(""),
      session_state := if c.session_state.None? || c.session_state.value == "" then "active" else c.session_state.value,
      hash_digest := c.hash_digest,
      id := Some(c.id))
  }

  /** A stored record reads back as itself with its id set, except that an empty session state
      comes back as "active". */
  lemma StoredRecordReadsBack(id: int, r: CaptureRecord)
    ensures ToRecord(StoreCapture(id, r))
            == r.(id := Some(id), session_state := if r.session_state == "" then "active" else r.session_state)
  {
  }

  /** The ids of the captures, in table order. */
  function Ids(cs: seq<StoredCapture>): (ids: seq<int>)
    ensures |ids| == |cs| && forall i :: 0 <= i < |cs| ==> ids[i] == cs[i].id
  {
    seq(|cs|, i requires 0 <= i < |cs| => cs[i].id)
  }

  /** Ids strictly increase along the table: the AUTOINCREMENT order. */
  predicate IdsIncreasing(cs: seq<StoredCapture>) {
    forall i, j :: 0 <= i < j < |cs| ==> cs[i].id < cs[j].id
  }

  /** `WHERE id NOT IN (SELECT capture_id FROM analysis)`, in table order. */
  function Unanalysed(cs: seq<StoredCapture>, a: map<int, StoredAnalysis>): (r: seq<StoredCapture>)
    ensures |r| <= |cs|
    ensures forall c :: c in r <==> c in cs && c.id !in a
  {
    if |cs| == 0 then []
    else (if cs[0].id !in a then [cs[0]] else []) + Unanalysed(cs[1..], a)
  }

  /** The sort key of `ORDER BY captured_at`. */
  function CaptureKey(c: StoredCapture): real {
    Rank(c.captured_at) as real
  }

  /** The unanalysed captures in ascending time; captures with equal times keep table order. */
  function PendingOrder(cs: seq<StoredCapture>, a: map<int, StoredAnalysis>): seq<StoredCapture> {
    SortBy(Unanalysed(cs, a), CaptureKey)
  }

  /** `LIMIT n`: the first n rows; SQLite reads a negative limit as no limit. */
  function Limited<T>(s: seq<T>, n: int): (r: seq<T>)
    ensures n >= 0 ==> |r| == if n < |s| then n else |s|
    ensures n < 0 ==> r == s
    ensures r == s[..|r|]
  {
    if n < 0 || n >= |s| then s else s[..n]
  }

  /** `pending_captures(limit)` are at most `limit` unanalysed captures in ascending time, and no
      unanalysed capture left out is earlier than one returned. */
  lemma PendingFacts(cs: seq<StoredCapture>, a: map<int, StoredAnalysis>, limit: int)
    ensures limit >= 0 ==> |Limited(PendingOrder(cs, a), limit)| <= limit
    ensures forall c :: c in Limited(PendingOrder(cs, a), limit) ==> c in cs && c.id !in a
    ensures SortedBy(Limited(PendingOrder(cs, a), limit), CaptureKey)
    ensures forall c, r :: (c in cs && c.id !in a && c !in Limited(PendingOrder(cs, a), limit)
                            && r in Limited(PendingOrder(cs, a), limit)) ==> CaptureKey(r) <= CaptureKey(c)
  {
    var u := Unanalysed(cs, a);
    var order := PendingOrder(cs, a);
    var rows := Limited(order, limit);
    SortByFacts(u, CaptureKey);
    SortByMembers(u, CaptureKey);
    SortedPrefix(order, |rows|, CaptureKey);
    forall c, r | c in cs && c.id !in a && c !in rows && r in rows
      ensures CaptureKey(r) <= CaptureKey(c)
    {
      PrefixBound(order, |rows|, CaptureKey, c, r);
    }
  }

  /** The records `pending_captures(limit)` returns: each pending row read back. */
  function PendingRecords(cs: seq<StoredCapture>, a: map<int, StoredAnalysis>, limit: int): (rs: seq<CaptureRecord>)
    ensures var rows := Limited(PendingOrder(cs, a), limit);
      |rs| == |rows| && forall k :: 0 <= k < |rows| ==> rs[k] == ToRecord(rows[k])
  {
    var rows := Limited(PendingOrder(cs, a), limit);
    seq(|rows|, k requires 0 <= k < |rows| => ToRecord(rows[k]))
  }

  /** A capture whose id no other capture shares is unanalysed only while its id has no row. */
  lemma {:induction false} UnanalysedOther(cs: seq<StoredCapture>, a: map<int, StoredAnalysis>, k: int, v: StoredAnalysis)
    requires k !in Ids(cs)
    ensures Unanalysed(cs, a[k := v]) == Unanalysed(cs, a)
  {
    if |cs| > 0 {
      assert Ids(cs[1..]) == Ids(cs)[1..];
      UnanalysedOther(cs[1..], a, k, v);
    }
  }

  /** Saving an analysis for a pending capture takes exactly that capture out of the pending
      count; saving for any other id (a capture already analysed, or none at all) leaves the
      count as it was. */
  lemma {:induction false} SaveShrinksPending(cs: seq<StoredCapture>, a: map<int, StoredAnalysis>, k: int, v: StoredAnalysis)
    requires IdsIncreasing(cs)
    ensures |Unanalysed(cs, a[k := v])| == |Unanalysed(cs, a)| - (if k in Ids(cs) && k !in a then 1 else 0)
  {
    if |cs| > 0 {
      var tail := cs[1..];
      assert Ids(cs) == [cs[0].id] + Ids(tail);
      IncreasingTail(cs);
      if cs[0].id == k {
        UnanalysedOther(tail, a, k, v);
      } else {
        SaveShrinksPending(tail, a, k, v);
      }
    }
  }

  /** Dropping the first capture keeps the ids increasing, and the first id is not among the rest. */
  lemma IncreasingTail(cs: seq<StoredCapture>)
    requires |cs| > 0 && IdsIncreasing(cs)
    ensures IdsIncreasing(cs[1..]) && cs[0].id !in Ids(cs[1..])
  {
    var tail := cs[1..];
    forall i | 0 <= i < |tail| ensures Ids(tail)[i] != cs[0].id {
      assert tail[i] == cs[i + 1];
    }
    forall i, j | 0 <= i < j < |tail| ensures tail[i].id < tail[j].id {
      assert tail[i] == cs[i + 1] && tail[j] == cs[j + 1];
    }
  }

  /** The analysed captures of day `d` joined with their analysis rows, in table order. */
  function Joined(cs: seq<StoredCapture>, a: map<int, StoredAnalysis>, d: string): (r: seq<JoinedRow>)
    ensures forall row :: row in r <==> exists c :: c in cs && IsoDate(c.captured_at) == d && c.id in a
                                                     && row == JoinRow(c, a[c.id])
  {
    if |cs| == 0 then []
    else
      var c := cs[0];
      var rest := Joined(cs[1..], a, d);
      assert forall x :: x in cs <==> x == c || x in cs[1..];
      (if IsoDate(c.captured_at) == d && c.id in a then [JoinRow(c, a[c.id])] else []) + rest
  }

  function JoinRow(c: StoredCapture, s: StoredAnalysis): JoinedRow {
    JoinedRow(c.id, c.captured_at, c.window_title, c.active_application,
              s.description, s.primary_task, s.confidence, s.tags, s.raw_response)
  }

  function RowKey(r: JoinedRow): real {
    Rank(r.captured_at) as real
  }

  /** `daily_analysis(d)`: the joined rows of day `d` in ascending time. */
  function DayRows(cs: seq<StoredCapture>, a: map<int, StoredAnalysis>, d: string): seq<JoinedRow> {
    SortBy(Joined(cs, a, d), RowKey)
  }

  /** The day query returns exactly the analysed captures whose date is `d`, each with its own
      analysis row, in ascending time. */
  lemma DayRowsFacts(cs: seq<StoredCapture>, a: map<int, StoredAnalysis>, d: string)
    ensures SortedBy(DayRows(cs, a, d), RowKey)
    ensures forall row :: row in DayRows(cs, a, d) <==>
              exists c :: c in cs && IsoDate(c.captured_at) == d && c.id in a && row == JoinRow(c, a[c.id])
    ensures |DayRows(cs, a, d)| == |Joined(cs, a, d)|
  {
    SortByFacts(Joined(cs, a, d), RowKey);
    forall row ensures row in DayRows(cs, a, d) <==> row in Joined(cs, a, d) {
      assert row in DayRows(cs, a, d) <==> row in multiset(DayRows(cs, a, d));
      assert row in Joined(cs, a, d) <==> row in multiset(Joined(cs, a, d));
    }
  }

  /** `ObservationRepository`: the two tables and the AUTOINCREMENT counter, the largest id
      ever issued. */
  class ObservationRepository {
    var captures: seq<StoredCapture>
    var analysis: map<int, StoredAnalysis>
    var lastId: int

    /** Ids increase along the table, are positive and never exceed the counter. */
    ghost predicate Valid()
      reads this
    {
      IdsIncreasing(captures) && lastId >= 0
      && forall i :: 0 <= i < |captures| ==> 0 < captures[i].id <= lastId
    }

    /** A new database: both tables empty. */
    constructor ()
      ensures Valid() && captures == [] && analysis == map[] && lastId == 0
    {
      captures := [];
      analysis := map[];
      lastId := 0;
    }

    /** `add_capture`: appends the record under the next id and returns that id, which exceeds
        every id issued before; earlier rows and the analysis table are unchanged. */
    method AddCapture(record: CaptureRecord) returns (id: int)
      requires Valid()
      modifies this
      ensures Valid()
      ensures id == old(lastId) + 1 && lastId == id
      ensures forall i :: 0 <= i < |old(captures)| ==> old(captures)[i].id < id
      ensures captures == old(captures) + [StoreCapture(id, record)]
      ensures analysis == old(analysis)
    {
      id := lastId + 1;
      captures := captures + [StoreCapture(id, record)];
      lastId := id;
    }

    /** `pending_captures(limit)`: the rows of the pending query, turned into records one by one. */
    method PendingCaptures(limit: int) returns (records: seq<CaptureRecord>)
      ensures records == PendingRecords(captures, analysis, limit)
      ensures limit >= 0 ==> |records| <= limit
      ensures forall k :: 0 <= k < |records| ==> records[k].id.Some? && records[k].id.value !in analysis
    {
      var rows := Limited(PendingOrder(captures, analysis), limit);
      records := [];
      for i := 0 to |rows|
        invariant |records| == i
        invariant forall k :: 0 <= k < i ==> records[k] == ToRecord(rows[k])
      {
        records := records + [ToRecord(rows[i])];
      }
      PendingFacts(captures, analysis, limit);
      forall k | 0 <= k < |records| ensures records[k].id.value !in analysis {
        assert rows[k] in rows;
      }
    }

    /** `pending_count`: the number of captures with no analysis row. */
    method PendingCount() returns (n: int)
      ensures n == |Unanalysed(captures, analysis)|
      ensures 0 <= n <= |captures|
    {
      n := |Unanalysed(captures, analysis)|;
    }

    /** `save_analysis`: an insert or replace keyed by capture id; the captures are unchanged. */
    method SaveAnalysis(result: AnalysisResult)
      requires Valid()
      modifies this
      ensures Valid()
      ensures analysis == old(analysis)[result.capture_id := StoreAnalysis(result)]
      ensures captures == old(captures) && lastId == old(lastId)
      ensures |Unanalysed(captures, analysis)|
              == |Unanalysed(old(captures), old(analysis))|
                 - (if result.capture_id in Ids(captures) && result.capture_id !in old(analysis) then 1 else 0)
    {
      SaveShrinksPending(captures, analysis, result.capture_id, StoreAnalysis(result));
      analysis := analysis[result.capture_id := StoreAnalysis(result)];
    }

    /** `daily_analysis(d)`. */
    method DailyAnalysis(d: string) returns (rows: seq<JoinedRow>)
      ensures rows == DayRows(captures, analysis, d)
      ensures forall row :: row in rows ==> IsoDate(row.captured_at) == d && row.id in analysis
    {
      rows := DayRows(captures, analysis, d);
      DayRowsFacts(captures, analysis, d);
    }
  }

  /** Saving twice for one capture leaves one row, holding the second result. */
  lemma SaveTwiceKeepsLast(a: map<int, StoredAnalysis>, r1: AnalysisResult, r2: AnalysisResult)
    requires r1.capture_id == r2.capture_id
    ensures var after := a[r1.capture_id := StoreAnalysis(r1)][r2.capture_id := StoreAnalysis(r2)];
      after == a[r2.capture_id := StoreAnalysis(r2)] && after.Keys == a.Keys + {r2.capture_id}
  {
  }
}
