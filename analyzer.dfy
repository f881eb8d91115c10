/** The batch runner of analyzer.py: it analyses the pending captures in order, saves each
    result and archives its image, stops the whole run at the first rate-limit error and goes on
    past any other error. The vision call (`GeminiAnalyzer.analyze`) and the archive step are
    oracles that succeed or raise an exception with a message. */
module Analyzer {
  import opened Wrappers
  import opened Text
  import opened Models
  import opened Storage

  /** The default of the `--limit` option. */
  const DefaultLimit: int := 20

  /** `"429" in message or "Quota exceeded" in message or "rate limit" in message.lower()`. */
  predicate IsRateLimited(message: string) {
    Contains(message, "429") || Contains(message, "Quota exceeded") || Contains(Lower(message), "rate limit")
  }

  /** What happened to one record: analysed, saved and archived; the analysis raised; or the
      result was saved and then the archive step raised. */
  datatype Outcome =
    | Archived(result: AnalysisResult)
    | AnalyzeFailed(message: string)
    | ArchiveFailed(result: AnalysisResult, message: string)
  {
    /** The message of the exception the record raised, if any. */
    function Error(): Option<string> {
      match this
      case Archived(_) => None
      case AnalyzeFailed(m) => Some(m)
      case ArchiveFailed(_, m) => Some(m)
    }

    /** The exception ends the run, as `limited` classifies messages. */
    predicate Stops(limited: string -> bool) {
      Error().Some? && limited(Error().value)
    }
  }

  /** The body of the `try` for one record. */
  function Attempt(record: CaptureRecord, analyze: CaptureRecord -> Result<AnalysisResult>,
                   archive: CaptureRecord -> Option<string>): (o: Outcome)
    ensures analyze(record).Err? <==> o.AnalyzeFailed?
    ensures analyze(record).Ok? ==> o.result == analyze(record).value
  {
    match analyze(record)
    case Err(e) => AnalyzeFailed(e.message)
    case Ok(result) =>
      match archive(record)
      case None => Archived(result)
      case Some(m) => ArchiveFailed(result, m)
  }

  /** The outcomes of the loop over `pending`: one per record, in order, up to and including
      the first that stops the run. */
  function Run(pending: seq<CaptureRecord>, analyze: CaptureRecord -> Result<AnalysisResult>,
               archive: CaptureRecord -> Option<string>, limited: string -> bool): (r: seq<Outcome>)
    ensures |r| <= |pending|
    ensures |pending| > 0 ==> |r| > 0 && r[0] == Attempt(pending[0], analyze, archive)
    ensures |pending| > 0 && |r| == 1 && |pending| > 1 ==> r[0].Stops(limited)
  {
    if |pending| == 0 then []
    else
      var o := Attempt(pending[0], analyze, archive);
      [o] + (if o.Stops(limited) then [] else Run(pending[1..], analyze, archive, limited))
  }

  /** Outcome k is the attempt of record k; only the last outcome may stop the run, and the run
      is cut short of the list only by one that does. */
  lemma {:induction false} RunFacts(pending: seq<CaptureRecord>, analyze: CaptureRecord -> Result<AnalysisResult>,
                                    archive: CaptureRecord -> Option<string>, limited: string -> bool)
    ensures |Run(pending, analyze, archive, limited)| <= |pending|
    ensures forall k :: 0 <= k < |Run(pending, analyze, archive, limited)| ==>
              Run(pending, analyze, archive, limited)[k] == Attempt(pending[k], analyze, archive)
    ensures forall k :: 0 <= k < |Run(pending, analyze, archive, limited)| - 1 ==> !Run(pending, analyze, archive, limited)[k].Stops(limited)
    ensures |Run(pending, analyze, archive, limited)| < |pending| ==>
              |Run(pending, analyze, archive, limited)| > 0 && Run(pending, analyze, archive, limited)[|Run(pending, analyze, archive, limited)| - 1].Stops(limited)
  {
    if |pending| > 0 {
      var o := Attempt(pending[0], analyze, archive);
      if !o.Stops(limited) {
        RunFacts(pending[1..], analyze, archive, limited);
        var rest := Run(pending[1..], analyze, archive, limited);
        assert Run(pending, analyze, archive, limited) == [o] + rest;
        forall k | 0 < k < |rest| + 1 ensures pending[k] == pending[1..][k - 1] { }
      }
    }
  }

  /** The results saved, in order: those of the records whose analysis succeeded. */
  function Saved(outcomes: seq<Outcome>): (r: seq<AnalysisResult>)
    ensures |r| <= |outcomes|
  {
    if |outcomes| == 0 then []
    else
      var last := outcomes[|outcomes| - 1];
      Saved(outcomes[..|outcomes| - 1]) + (if last.AnalyzeFailed? then [] else [last.result])
  }

  /** Every saved result is the analysis of one of the records, and the records whose analysis
      failed save nothing. */
  lemma {:induction false} SavedOnlyAnalysed(pending: seq<CaptureRecord>, analyze: CaptureRecord -> Result<AnalysisResult>,
                                             archive: CaptureRecord -> Option<string>, limited: string -> bool)
    ensures forall r :: r in Saved(Run(pending, analyze, archive, limited)) ==>
              exists k :: 0 <= k < |pending| && analyze(pending[k]) == Ok(r)
  {
    var run := Run(pending, analyze, archive, limited);
    RunFacts(pending, analyze, archive, limited);
    SavedMembers(run);
    forall r | r in Saved(run) ensures exists k :: 0 <= k < |pending| && analyze(pending[k]) == Ok(r) {
      var k :| 0 <= k < |run| && !run[k].AnalyzeFailed? && run[k].result == r;
      assert run[k] == Attempt(pending[k], analyze, archive);
    }
  }

  lemma {:induction false} SavedMembers(outcomes: seq<Outcome>)
    ensures forall r :: r in Saved(outcomes) ==>
              exists k :: 0 <= k < |outcomes| && !outcomes[k].AnalyzeFailed? && outcomes[k].result == r
  {
    if |outcomes| > 0 {
      var init := outcomes[..|outcomes| - 1];
      SavedMembers(init);
      forall r | r in Saved(outcomes)
        ensures exists k :: 0 <= k < |outcomes| && !outcomes[k].AnalyzeFailed? && outcomes[k].result == r
      {
        if r in Saved(init) {
          var k :| 0 <= k < |init| && !init[k].AnalyzeFailed? && init[k].result == r;
          assert outcomes[k] == init[k];
        } else {
          assert outcomes[|outcomes| - 1].result == r;
        }
      }
    }
  }

  /** The analysis table after saving `results` one after another. */
  function SaveAll(a: map<int, StoredAnalysis>, results: seq<AnalysisResult>): map<int, StoredAnalysis> {
    if |results| == 0 then a
    else
      var last := results[|results| - 1];
      SaveAll(a, results[..|results| - 1])[last.capture_id := StoreAnalysis(last)]
  }

  /** `main`: the pending records (at most `limit`) in the order the store returns them, run
      through the loop with `_is_rate_limited` as the test that ends it. */
  method RunBatch(repo: ObservationRepository, limit: int, analyze: CaptureRecord -> Result<AnalysisResult>,
                  archive: CaptureRecord -> Option<string>)
    returns (pending: seq<CaptureRecord>, outcomes: seq<Outcome>, archived: seq<CaptureRecord>)
    requires repo.Valid()
    modifies repo
    ensures repo.Valid()
    ensures pending == PendingRecords(old(repo.captures), old(repo.analysis), limit)
    ensures outcomes == Run(pending, analyze, archive, IsRateLimited)
    ensures repo.analysis == SaveAll(old(repo.analysis), Saved(outcomes))
    ensures repo.captures == old(repo.captures) && repo.lastId == old(repo.lastId)
    ensures |archived| == |Saved(outcomes)|
    ensures forall k :: 0 <= k < |archived| ==> analyze(archived[k]) == Ok(Saved(outcomes)[k])
  {
    pending := repo.PendingCaptures(limit);
    outcomes, archived := ProcessAll(repo, pending, analyze, archive, IsRateLimited);
  }

  /** `main`'s loop over the pending records: for each, analyse, save, archive; an error that
      `limited` classifies as a rate limit ends the loop, any other error moves on to the next
      record. `archived` lists the records the archive step was called for. */
  method ProcessAll(repo: ObservationRepository, pending: seq<CaptureRecord>,
                    analyze: CaptureRecord -> Result<AnalysisResult>, archive: CaptureRecord -> Option<string>,
                    limited: string -> bool)
    returns (outcomes: seq<Outcome>, archived: seq<CaptureRecord>)
    requires repo.Valid()
    modifies repo
    ensures repo.Valid()
    ensures outcomes == Run(pending, analyze, archive, limited)
    ensures repo.analysis == SaveAll(old(repo.analysis), Saved(outcomes))
    ensures repo.captures == old(repo.captures) && repo.lastId == old(repo.lastId)
    ensures |archived| == |Saved(outcomes)|
    ensures forall k :: 0 <= k < |archived| ==> analyze(archived[k]) == Ok(Saved(outcomes)[k])
  {
    outcomes := [];
    archived := [];
    if |pending| == 0 {
      return;
    }
    ghost var a0 := repo.analysis;
    ghost var c0 := repo.captures;
    ghost var l0 := repo.lastId;
    var i := 0;
    assert pending[i..] == pending;
    while i < |pending|
      invariant 0 <= i <= |pending| && |outcomes| == i
      invariant outcomes + Run(pending[i..], analyze, archive, limited) == Run(pending, analyze, archive, limited)
      invariant repo.Valid() && repo.captures == c0 && repo.lastId == l0
      invariant repo.analysis == SaveAll(a0, Saved(outcomes))
      invariant ArchivedMatch(archived, outcomes, analyze)
    {
      var o;
      o, outcomes, archived := ProcessNext(repo, pending, i, outcomes, archived, analyze, archive, limited, a0);
      if o.Stops(limited) {
        break;
      }
      i := i + 1;
    }
    assert pending[|pending|..] == [];
  }

  /** One pass of `main`'s loop: record i is processed, and the outcomes, the table and the
      archived records move on by its outcome. */
  method ProcessNext(repo: ObservationRepository, pending: seq<CaptureRecord>, i: nat, outcomes: seq<Outcome>,
                     archived: seq<CaptureRecord>, analyze: CaptureRecord -> Result<AnalysisResult>,
                     archive: CaptureRecord -> Option<string>, limited: string -> bool, ghost a0: map<int, StoredAnalysis>)
    returns (o: Outcome, outcomes': seq<Outcome>, archived': seq<CaptureRecord>)
    requires repo.Valid() && i < |pending|
    requires outcomes + Run(pending[i..], analyze, archive, limited) == Run(pending, analyze, archive, limited)
    requires repo.analysis == SaveAll(a0, Saved(outcomes))
    requires ArchivedMatch(archived, outcomes, analyze)
    modifies repo
    ensures repo.Valid() && repo.captures == old(repo.captures) && repo.lastId == old(repo.lastId)
    ensures o == Attempt(pending[i], analyze, archive) && outcomes' == outcomes + [o]
    ensures o.Stops(limited) ==> outcomes' == Run(pending, analyze, archive, limited)
    ensures !o.Stops(limited) ==> outcomes' + Run(pending[i + 1..], analyze, archive, limited) == Run(pending, analyze, archive, limited)
    ensures repo.analysis == SaveAll(a0, Saved(outcomes'))
    ensures ArchivedMatch(archived', outcomes', analyze)
  {
    var record := pending[i];
    ghost var tableBefore := repo.analysis;
    o := Process(repo, record, analyze, archive);
    RunAdvance(pending, i, outcomes, o, analyze, archive, limited);
    TableAdvance(a0, outcomes, o, tableBefore, repo.analysis);
    ArchivedAdvance(outcomes, archived, o, record, analyze, archive);
    archived' := archived;
    if !o.AnalyzeFailed? {
      archived' := archived + [record];
    }
    outcomes' := outcomes + [o];
  }

  /** The run so far, extended by the outcome of record i. */
  lemma {:induction false} RunAdvance(pending: seq<CaptureRecord>, i: nat, outcomes: seq<Outcome>, o: Outcome,
                   analyze: CaptureRecord -> Result<AnalysisResult>, archive: CaptureRecord -> Option<string>, limited: string -> bool)
    requires i < |pending| && outcomes + Run(pending[i..], analyze, archive, limited) == Run(pending, analyze, archive, limited)
    requires o == Attempt(pending[i], analyze, archive)
    ensures o.Stops(limited) ==> outcomes + [o] == Run(pending, analyze, archive, limited)
    ensures !o.Stops(limited) ==> (outcomes + [o]) + Run(pending[i + 1..], analyze, archive, limited) == Run(pending, analyze, archive, limited)
  {
    var rest := pending[i..];
    assert rest[0] == pending[i] && rest[1..] == pending[i + 1..];
    RunStep(rest, analyze, archive, limited);
    if o.Stops(limited) {
      assert Run(rest, analyze, archive, limited) == [o];
    } else {
      var tail := Run(pending[i + 1..], analyze, archive, limited);
      assert Run(rest, analyze, archive, limited) == [o] + tail;
      assert (outcomes + [o]) + tail == outcomes + ([o] + tail);
    }
  }

  /** The analysis table after record i's outcome. */
  lemma TableAdvance(a0: map<int, StoredAnalysis>, outcomes: seq<Outcome>, o: Outcome,
                     before: map<int, StoredAnalysis>, after: map<int, StoredAnalysis>)
    requires before == SaveAll(a0, Saved(outcomes))
    requires o.AnalyzeFailed? ==> after == before
    requires !o.AnalyzeFailed? ==> after == before[o.result.capture_id := StoreAnalysis(o.result)]
    ensures after == SaveAll(a0, Saved(outcomes + [o]))
  {
    SavedSnoc(outcomes, o);
    if !o.AnalyzeFailed? {
      SaveAllSnoc(a0, Saved(outcomes), o.result);
    } else {
      assert Saved(outcomes) + [] == Saved(outcomes);
    }
  }

  /** The archive step was called, in order, for exactly the records whose results were saved. */
  predicate ArchivedMatch(archived: seq<CaptureRecord>, outcomes: seq<Outcome>,
                          analyze: CaptureRecord -> Result<AnalysisResult>) {
    |archived| == |Saved(outcomes)|
    && forall k :: 0 <= k < |archived| ==> analyze(archived[k]) == Ok(Saved(outcomes)[k])
  }

  /** The archived records after record i's outcome. */
  lemma ArchivedAdvance(outcomes: seq<Outcome>, archived: seq<CaptureRecord>, o: Outcome, record: CaptureRecord,
                        analyze: CaptureRecord -> Result<AnalysisResult>, archive: CaptureRecord -> Option<string>)
    requires ArchivedMatch(archived, outcomes, analyze)
    requires o == Attempt(record, analyze, archive)
    ensures ArchivedMatch(archived + (if o.AnalyzeFailed? then [] else [record]), outcomes + [o], analyze)
  {
    SavedSnoc(outcomes, o);
  }

  /** One iteration: analyse, then save and archive when the analysis succeeded. */
  method Process(repo: ObservationRepository, record: CaptureRecord, analyze: CaptureRecord -> Result<AnalysisResult>,
                 archive: CaptureRecord -> Option<string>)
    returns (o: Outcome)
    requires repo.Valid()
    modifies repo
    ensures repo.Valid() && repo.captures == old(repo.captures) && repo.lastId == old(repo.lastId)
    ensures o == Attempt(record, analyze, archive)
    ensures o.AnalyzeFailed? ==> repo.analysis == old(repo.analysis)
    ensures !o.AnalyzeFailed? ==> repo.analysis == old(repo.analysis)[o.result.capture_id := StoreAnalysis(o.result)]
  {
    var analysed := analyze(record);
    if analysed.Err? {
      o := AnalyzeFailed(analysed.error.message);
    } else {
      repo.SaveAnalysis(analysed.value);
      var failure := archive(record);
      o := if failure.None? then Archived(analysed.value) else ArchiveFailed(analysed.value, failure.value);
    }
  }

  lemma RunStep(pending: seq<CaptureRecord>, analyze: CaptureRecord -> Result<AnalysisResult>,
                archive: CaptureRecord -> Option<string>, limited: string -> bool)
    requires |pending| > 0
    ensures Run(pending, analyze, archive, limited)
            == [Attempt(pending[0], analyze, archive)]
               + (if Attempt(pending[0], analyze, archive).Stops(limited) then [] else Run(pending[1..], analyze, archive, limited))
  {
  }

  lemma SaveAllSnoc(a: map<int, StoredAnalysis>, results: seq<AnalysisResult>, r: AnalysisResult)
    ensures SaveAll(a, results + [r]) == SaveAll(a, results)[r.capture_id := StoreAnalysis(r)]
  {
    assert (results + [r])[..|results|] == results;
  }

  lemma SavedSnoc(outcomes: seq<Outcome>, o: Outcome)
    ensures Saved(outcomes + [o]) == Saved(outcomes) + (if o.AnalyzeFailed? then [] else [o.result])
  {
    assert (outcomes + [o])[..|outcomes|] == outcomes;
  }

  /** With nothing pending, nothing is analysed, saved or archived. */
  lemma NothingPending(analyze: CaptureRecord -> Result<AnalysisResult>, archive: CaptureRecord -> Option<string>,
                       a: map<int, StoredAnalysis>)
    ensures Run([], analyze, archive, IsRateLimited) == [] && SaveAll(a, Saved([])) == a
  {
  }

  /** A rate-limit error on the first record ends the run there: the records after it are not
      touched. */
  lemma RateLimitStopsRun(pending: seq<CaptureRecord>, analyze: CaptureRecord -> Result<AnalysisResult>,
                          archive: CaptureRecord -> Option<string>)
    requires |pending| > 0 && analyze(pending[0]).Err? && IsRateLimited(analyze(pending[0]).error.message)
    ensures Run(pending, analyze, archive, IsRateLimited) == [AnalyzeFailed(analyze(pending[0]).error.message)]
  {
  }

  /** Any other error on the first record moves on to the rest. */
  lemma OtherErrorContinues(pending: seq<CaptureRecord>, analyze: CaptureRecord -> Result<AnalysisResult>,
                            archive: CaptureRecord -> Option<string>)
    requires |pending| > 0 && analyze(pending[0]).Err? && !IsRateLimited(analyze(pending[0]).error.message)
    ensures Run(pending, analyze, archive, IsRateLimited)
            == [AnalyzeFailed(analyze(pending[0]).error.message)] + Run(pending[1..], analyze, archive, IsRateLimited)
  {
  }

  /** An HTTP 429 or "Quota exceeded" anywhere in the message is a rate limit, and so is "rate
      limit" in any letter case. */
  lemma RateLimitMessages(prefix: string, suffix: string, phrase: string)
    requires Lower(phrase) == "rate limit"
    ensures IsRateLimited(prefix + "429" + suffix)
    ensures IsRateLimited(prefix + "Quota exceeded" + suffix)
    ensures IsRateLimited(prefix + phrase + suffix)
  {
    var m := prefix + "429" + suffix;
    assert StartsWith(m[|prefix|..], "429") by { assert m[|prefix|..][..3] == "429"; }
    var q := prefix + "Quota exceeded" + suffix;
    assert StartsWith(q[|prefix|..], "Quota exceeded") by { assert q[|prefix|..][..14] == "Quota exceeded"; }
    var l := Lower(prefix + phrase + suffix);
    assert l[|prefix|..][..10] == Lower(phrase) by {
      forall i | 0 <= i < 10 ensures l[|prefix|..][..10][i] == Lower(phrase)[i] {
        assert (prefix + phrase + suffix)[|prefix| + i] == phrase[i];
      }
    }
    assert StartsWith(l[|prefix|..], "rate limit");
  }

  /** A message with none of the three markers is not a rate limit, so the run goes on. */
  lemma PlainErrorNotRateLimited(message: string)
    requires '4' !in message && 'Q' !in message && forall i :: 0 <= i < |message| ==> LowerChar(message[i]) != 'r'
    ensures !IsRateLimited(message)
  {
    forall j | 0 <= j <= |message|
      ensures !StartsWith(message[j..], "429") && !StartsWith(message[j..], "Quota exceeded")
      ensures !StartsWith(Lower(message)[j..], "rate limit")
    {
      if j < |message| {
        assert message[j..][0] == message[j] && Lower(message)[j..][0] == LowerChar(message[j]);
      }
    }
  }

  /** With the default `--limit`, one run looks at no more than twenty records. */
  lemma DefaultBatchBounded(cs: seq<StoredCapture>, a: map<int, StoredAnalysis>,
                            analyze: CaptureRecord -> Result<AnalysisResult>, archive: CaptureRecord -> Option<string>)
    ensures |Run(PendingRecords(cs, a, DefaultLimit), analyze, archive, IsRateLimited)| <= DefaultLimit
  {
    PendingFacts(cs, a, DefaultLimit);
  }
}
