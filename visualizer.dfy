/** The infographic request of mirulog/visualizer.py: the text prompt built from a day's summary,
    and what `render_summary` makes of the service's reply. The HTTP call, base64 decoding and
    the number formatting (`:.1f`, `:.0f`) are oracles. */
module Visualizer {
  import opened Wrappers
  import opened Text
  import opened JsonValue
  import opened Models
  import opened Config

  const Instruction: string := "Generate a clean infographic summarizing the day."

  /** The prompt line of one segment: period, task, rounded minutes and the highlights. */
  function SegmentLine(seg: SummarySegment, fmt0: real -> string): string {
    "- " + seg.period_label + ": " + seg.dominant_task + " (" + fmt0(seg.duration_minutes) + "m) -> "
    + Join(", ", seg.highlights)
  }

  function SegmentLines(segs: seq<SummarySegment>, fmt0: real -> string): (r: seq<string>)
    ensures |r| == |segs|
    ensures forall k :: 0 <= k < |segs| ==> r[k] == SegmentLine(segs[k], fmt0)
  {
    seq(|segs|, k requires 0 <= k < |segs| => SegmentLine(segs[k], fmt0))
  }

  /** The optional line `title + "; ".join(items)`, present only for a non-empty list. */
  function OptionalLine(title: string, items: seq<string>): (r: seq<string>)
    ensures |r| == (if |items| == 0 then 0 else 1)
    ensures |items| > 0 ==> r[0] == title + Join("; ", items)
  {
    if |items| == 0 then [] else [title + Join("; ", items)]
  }

  /** The lines of the prompt, in order. */
  function PromptLines(s: DailySummary, fmt1: real -> string, fmt0: real -> string): seq<string> {
    ["Date: " + s.date, "Total active minutes: " + fmt1(s.total_active_minutes), "Segments:"]
    + SegmentLines(s.segments, fmt0)
    + OptionalLine("Blockers: ", s.blocking_issues)
    + OptionalLine("Follow-ups: ", s.follow_ups)
    + [Instruction]
  }

  /** The shape of the prompt: the date, the total and the "Segments:" heading, then one line per
      segment in order; a Blockers and a Follow-ups line exactly when those lists are non-empty;
      the fixed instruction last. */
  lemma PromptShape(s: DailySummary, fmt1: real -> string, fmt0: real -> string)
    ensures var lines := PromptLines(s, fmt1, fmt0);
      var n := |s.segments|;
      var b := if |s.blocking_issues| == 0 then 0 else 1;
      var f := if |s.follow_ups| == 0 then 0 else 1;
      && |lines| == 4 + n + b + f
      && lines[0] == "Date: " + s.date
      && lines[1] == "Total active minutes: " + fmt1(s.total_active_minutes)
      && lines[2] == "Segments:"
      && (forall k :: 0 <= k < n ==> lines[3 + k] == SegmentLine(s.segments[k], fmt0))
      && (b == 1 ==> lines[3 + n] == "Blockers: " + Join("; ", s.blocking_issues))
      && (f == 1 ==> lines[3 + n + b] == "Follow-ups: " + Join("; ", s.follow_ups))
      && lines[|lines| - 1] == Instruction
  {
  }

  /** `_build_prompt`: the lines are appended one by one and joined with newlines. */
  method BuildPrompt(s: DailySummary, fmt1: real -> string, fmt0: real -> string) returns (prompt: string)
    ensures prompt == Join("\n", PromptLines(s, fmt1, fmt0))
  {
    var lines := ["Date: " + s.date];
    lines := lines + ["Total active minutes: " + fmt1(s.total_active_minutes)];
    lines := lines + ["Segments:"];
    for i := 0 to |s.segments|
      invariant lines == ["Date: " + s.date, "Total active minutes: " + fmt1(s.total_active_minutes), "Segments:"]
                         + SegmentLines(s.segments[..i], fmt0)
    {
      assert SegmentLines(s.segments[..i + 1], fmt0) == SegmentLines(s.segments[..i], fmt0) + [SegmentLine(s.segments[i], fmt0)];
      lines := lines + [SegmentLine(s.segments[i], fmt0)];
    }
    assert s.segments[..|s.segments|] == s.segments;
    ghost var head := ["Date: " + s.date, "Total active minutes: " + fmt1(s.total_active_minutes), "Segments:"]
                      + SegmentLines(s.segments, fmt0);
    if |s.blocking_issues| > 0 {
      lines := lines + ["Blockers: " + Join("; ", s.blocking_issues)];
    }
    assert lines == head + OptionalLine("Blockers: ", s.blocking_issues);
    if |s.follow_ups| > 0 {
      lines := lines + ["Follow-ups: " + Join("; ", s.follow_ups)];
    }
    assert lines == head + OptionalLine("Blockers: ", s.blocking_issues) + OptionalLine("Follow-ups: ", s.follow_ups);
    lines := lines + [Instruction];
    assert lines == PromptLines(s, fmt1, fmt0);
    prompt := Join("\n", lines);
  }

  /** When no line holds a line break (no summary text does), the prompt splits back into its
      lines. */
  lemma PromptReadsBack(s: DailySummary, fmt1: real -> string, fmt0: real -> string)
    requires forall k :: 0 <= k < |PromptLines(s, fmt1, fmt0)| ==> '\n' !in PromptLines(s, fmt1, fmt0)[k]
    ensures Split(Join("\n", PromptLines(s, fmt1, fmt0)), '\n') == PromptLines(s, fmt1, fmt0)
  {
    SplitJoin(PromptLines(s, fmt1, fmt0), '\n');
  }

  /** The request `render_summary` posts. */
  datatype RenderRequest = RenderRequest(endpoint: string, headers: seq<(string, string)>, model: string, prompt: string)

  /** What the service answered: the status, the Content-Type header if any, the raw body, and
      the body decoded as JSON (None when it is not JSON). */
  datatype RenderReply = RenderReply(status: int, contentType: Option<string>, content: seq<bv8>, json: Option<Json>)

  const MissingKeyMessage: string := "Nanobanana API key is required to render a summary"
  const MissingImageMessage: string := "Nanobanana response missing 'image_base64'"

  function RequestFor(v: VisualizationSettings, key: string, prompt: string): (q: RenderRequest)
    ensures q.endpoint == v.endpoint && q.model == v.model && q.prompt == prompt
    ensures ("Authorization", "Bearer " + key) in q.headers
  {
    RenderRequest(v.endpoint, [("Authorization", "Bearer " + key), ("Content-Type", "application/json")], v.model, prompt)
  }

  /** The bytes written to the output file for a successful reply: the body itself when the
      Content-Type names an image, otherwise the decoded `image_base64` field. */
  function ImageBytes(reply: RenderReply, b64decode: string -> Result<seq<bv8>>): (r: Result<seq<bv8>>)
    ensures reply.contentType.Some? && Contains(reply.contentType.value, "image") ==> r == Ok(reply.content)
    ensures !(reply.contentType.Some? && Contains(reply.contentType.value, "image")) && reply.json.Some?
            && reply.json.value.JObj? && !Truthy(GetOr(reply.json.value.fields, "image_base64", JNull))
            ==> r == Err(Failure(ValueError, MissingImageMessage))
    ensures !(reply.contentType.Some? && Contains(reply.contentType.value, "image")) && reply.json.None?
            ==> r.Err? && r.error.kind == ValueError
    ensures !(reply.contentType.Some? && Contains(reply.contentType.value, "image")) && reply.json.Some?
            && reply.json.value.JObj? && GetOr(reply.json.value.fields, "image_base64", JNull).JStr?
            && GetOr(reply.json.value.fields, "image_base64", JNull).s != ""
            ==> r == b64decode(GetOr(reply.json.value.fields, "image_base64", JNull).s)
  {
    if Contains(reply.contentType.GetOr(""), "image") then Ok(reply.content)
    else
      match reply.json
      case None => Err(Failure(ValueError, "the response body is not JSON"))
      case Some(data) =>
        if !data.JObj? then Err(Failure(AttributeError, "'get' is not an attribute of the decoded value"))
        else
          var b64 := GetOr(data.fields, "image_base64", JNull);
          if !Truthy(b64) then Err(Failure(ValueError, MissingImageMessage))
          else if b64.JStr? then b64decode(b64.s)
          else Err(Failure(TypeError, "argument should be a bytes-like object or ASCII string"))
  }

  /** `render_summary`: without an API key it raises before posting anything; a transport error
      or a status of 400 or above is passed on; otherwise the image bytes are written to the
      output path, which is returned with them. */
  function RenderSummary(v: VisualizationSettings, s: DailySummary, output: Path, fmt1: real -> string,
                         fmt0: real -> string, post: RenderRequest -> Result<RenderReply>,
                         b64decode: string -> Result<seq<bv8>>): (r: Result<(Path, seq<bv8>)>)
    ensures v.api_key.None? || v.api_key == Some("") ==> r == Err(Failure(Runtime, MissingKeyMessage))
    ensures r.Ok? ==> r.value.0 == output
    ensures r.Ok? ==> v.api_key.Some? && v.api_key.value != ""
                      && post(RequestFor(v, v.api_key.value, Join("\n", PromptLines(s, fmt1, fmt0)))).Ok?
    ensures r.Ok? ==> var reply := post(RequestFor(v, v.api_key.value, Join("\n", PromptLines(s, fmt1, fmt0)))).value;
                      reply.status < 400 && Ok(r.value.1) == ImageBytes(reply, b64decode)
    ensures v.api_key.Some? && v.api_key.value != ""
            && post(RequestFor(v, v.api_key.value, Join("\n", PromptLines(s, fmt1, fmt0)))).Ok?
            ==> var reply := post(RequestFor(v, v.api_key.value, Join("\n", PromptLines(s, fmt1, fmt0)))).value;
                reply.status < 400 && ImageBytes(reply, b64decode).Ok?
                ==> r == Ok((output, ImageBytes(reply, b64decode).value))
  {
    if v.api_key.None? || v.api_key.value == "" then Err(Failure(Runtime, MissingKeyMessage))
    else
      var reply :- post(RequestFor(v, v.api_key.value, Join("\n", PromptLines(s, fmt1, fmt0))));
      if reply.status >= 400 then Err(Failure(Other, "HTTP error " + NatToString(reply.status as nat)))
      else
        var bytes :- ImageBytes(reply, b64decode);
        Ok((output, bytes))
  }

  /** An image reply is written as it came, whatever its JSON reading. */
  lemma ImageReplyWrittenRaw(v: VisualizationSettings, s: DailySummary, output: Path, fmt1: real -> string,
                             fmt0: real -> string, post: RenderRequest -> Result<RenderReply>,
                             b64decode: string -> Result<seq<bv8>>, key: string, body: seq<bv8>)
    requires v.api_key == Some(key) && key != ""
    requires post(RequestFor(v, key, Join("\n", PromptLines(s, fmt1, fmt0)))) == Ok(RenderReply(200, Some("image/png"), body, None))
    ensures RenderSummary(v, s, output, fmt1, fmt0, post, b64decode) == Ok((output, body))
  {
    assert StartsWith("image/png"[0..], "image");
  }

  /** A JSON reply carrying `image_base64` is written as the decoded bytes. */
  lemma Base64ReplyWritten(v: VisualizationSettings, s: DailySummary, output: Path, fmt1: real -> string,
                           fmt0: real -> string, post: RenderRequest -> Result<RenderReply>,
                           b64decode: string -> Result<seq<bv8>>, key: string, body: seq<bv8>,
                           encoded: string, decoded: seq<bv8>)
    requires v.api_key == Some(key) && key != "" && encoded != ""
    requires post(RequestFor(v, key, Join("\n", PromptLines(s, fmt1, fmt0))))
             == Ok(RenderReply(200, Some("application/json"), body, Some(JObj([("image_base64", JStr(encoded))]))))
    requires b64decode(encoded) == Ok(decoded)
    ensures RenderSummary(v, s, output, fmt1, fmt0, post, b64decode) == Ok((output, decoded))
  {
    var ct := "application/json";
    assert 'm' !in ct;
    assert !Contains(ct, "image") by {
      forall k | 0 <= k <= |ct|
        ensures !StartsWith(ct[k..], "image")
      {
        if k + 5 <= |ct| {
          assert ct[k..][..5][1] == ct[k + 1];
        }
      }
    }
  }
}
