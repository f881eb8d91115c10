/** The analyser that sends a screenshot to Google's Gemini model (mirulog/gemini_client.py).
    The SDK call, opening the image and the filesystem check are oracles. */
module GeminiClient {
  import opened Wrappers
  import opened Text
  import opened JsonValue
  import opened Times
  import opened Models
  import opened Config
  import opened LlmResponse
  import LocalLlmClient

  const Prompt: string :=
    "\nYou are Miru-Log, a meticulous self-tracking assistant. You receive desktop screenshots and contextual metadata.\n"
    + "Analyze what the user was doing. Respond strictly as compact JSON with keys:\n"
    + "  - description: 1 sentence summary of the activity.\n"
    + "  - primary_task: concise task label (<=6 words).\n"
    + "  - tags: array of activity tags/keywords.\n"
    + "  - confidence: float between 0 and 1 reflecting your certainty.\n"
    + "Focus on observable actions only.\n"

  /** One `generate_content` call: the model, the prompt and the image, and the generation
      settings. */
  datatype Generation = Generation(
    model: string,
    prompt: string,
    image: Path,
    max_output_tokens: int,
    temperature: real)

  /** The prompt of `analyze`: the fixed instructions, then the capture's time, window and
      application, one per line. */
  function RecordPrompt(record: CaptureRecord, isoformat: DateTime -> string): (p: string)
    ensures StartsWith(p, Prompt)
  {
    Prompt + "\nTimestamp: " + isoformat(record.captured_at) + "\nWindow: " + record.window_title
    + "\nApplication: " + record.active_application + "\n"
  }

  /** The request `analyze` makes for a record. */
  function GenerationFor(s: GeminiSettings, record: CaptureRecord, isoformat: DateTime -> string): (g: Generation)
    ensures g.model == s.model && g.image == record.image_path
    ensures g.max_output_tokens == s.max_tokens && g.temperature == s.temperature
    ensures StartsWith(g.prompt, Prompt)
  {
    Generation(s.model, RecordPrompt(record, isoformat), record.image_path, s.max_tokens, s.temperature)
  }

  /** `_parse_payload` of the Gemini client: the fenced body is decoded; when it is not JSON the
      payload is the empty object. There is no salvage of a brace-delimited part. */
  function ParsePayload(dec: Decoders, text: string): (r: Result<Json>)
    ensures StripFence(text).Err? ==> r == Err(StripFence(text).error)
    ensures StripFence(text).Ok? && dec.loads(StripFence(text).value).Some?
            ==> r == Ok(dec.loads(StripFence(text).value).value)
    ensures StripFence(text).Ok? && dec.loads(StripFence(text).value).None? ==> r == Ok(JObj([]))
  {
    var cleaned :- StripFence(text);
    Ok(dec.loads(cleaned).GetOr(JObj([])))
  }

  /** Both clients decode a reply the same way whenever its fenced body is JSON, and fail the
      same way on a bare fence; they differ only when it is not JSON. */
  lemma ParsersAgreeOnJson(dec: Decoders, text: string)
    requires StripFence(text).Err? || dec.loads(StripFence(text).value).Some?
    ensures ParsePayload(dec, text) == LocalLlmClient.ParsePayload(dec, text)
  {
  }

  /** What `analyze` makes of the model's reply text. */
  function AnalyzeReply(dec: Decoders, reply: string, id: Option<int>): (r: Result<AnalysisResult>)
    ensures r.Ok? ==> r.value.capture_id == CaptureIdOf(id) && r.value.raw_response == Some(ReplyText(reply))
  {
    var text := ReplyText(reply);
    var payload :- ParsePayload(dec, text);
    Normalize(dec, payload, text, id)
  }

  /** `GeminiAnalyzer.analyze`: a missing image is FileNotFoundError before any request; an
      exception of the SDK call is passed on; otherwise the reply is parsed and normalised.
      `generate` answers a request with the response text or the SDK's error. */
  function Analyze(dec: Decoders, s: GeminiSettings, record: CaptureRecord, imageExists: Path -> bool,
                   isoformat: DateTime -> string, generate: Generation -> Result<string>): (r: Result<AnalysisResult>)
    ensures !imageExists(record.image_path) ==> r.Err? && r.error.kind == NotFound
    ensures imageExists(record.image_path) && generate(GenerationFor(s, record, isoformat)).Err?
            ==> r == Err(generate(GenerationFor(s, record, isoformat)).error)
    ensures imageExists(record.image_path) && generate(GenerationFor(s, record, isoformat)).Ok?
            ==> r == AnalyzeReply(dec, generate(GenerationFor(s, record, isoformat)).value, record.id)
    ensures r.Ok? ==> r.value.capture_id == CaptureIdOf(record.id)
                      && r.value.raw_response.Some? && r.value.raw_response.value != ""
  {
    if !imageExists(record.image_path) then Err(Failure(NotFound, PathText(record.image_path)))
    else
      var reply :- generate(GenerationFor(s, record, isoformat));
      AnalyzeReply(dec, reply, record.id)
  }

  /** A reply with nothing to strip or unfence that decodes to no fields, or not at all, becomes
      its own description with the defaults for everything else. */
  lemma UnfencedEmptyDefaults(dec: Decoders, text: string, id: Option<int>)
    requires |text| > 0 && !IsSpace(text[0]) && !IsSpace(text[|text| - 1]) && text[0] != '`'
    requires dec.loads(text).None? || dec.loads(text) == Some(JObj([]))
    ensures AnalyzeReply(dec, text, id)
            == Ok(AnalysisResult(CaptureIdOf(id), text, Unclassified, DefaultConfidence, [], Some(text)))
  {
    UnfencedKept(text);
    assert ParsePayload(dec, text) == Ok(JObj([]));
    NormalizeEmptyPayload(dec, text, id);
  }

  /** An empty reply is read as "{}": an empty payload whose description is "{}" itself. */
  lemma EmptyReplyDefaults(dec: Decoders, id: Option<int>)
    requires dec.loads("{}") == Some(JObj([]))
    ensures AnalyzeReply(dec, "", id)
            == Ok(AnalysisResult(CaptureIdOf(id), "{}", Unclassified, DefaultConfidence, [], Some("{}")))
  {
    UnfencedEmptyDefaults(dec, "{}", id);
  }

  /** Prose around a fence is not JSON, and without a salvage the whole reply becomes the
      description, where the local client would decode the object inside the fence. */
  lemma ProseBecomesDescription(dec: Decoders)
    requires dec.loads(LocalLlmClient.ProseReply).None?
    ensures AnalyzeReply(dec, LocalLlmClient.ProseReply, None)
            == Ok(AnalysisResult(-1, LocalLlmClient.ProseReply, Unclassified, DefaultConfidence, [],
                                 Some(LocalLlmClient.ProseReply)))
  {
    var t := LocalLlmClient.ProseReply;
    assert t[0] == 'S' && t[|t| - 1] == '`';
    UnfencedEmptyDefaults(dec, t, None);
  }
}
