/** What both vision clients do with the model's reply: cut a Markdown code fence out of the
    text, and turn the decoded payload into an `AnalysisResult`, filling in defaults for the
    fields the model left out. */
module LlmResponse {
  import opened Wrappers
  import opened Text
  import opened JsonValue
  import opened Models

  /** The parts of Python's runtime the clients lean on, as oracles: `json.loads` (None when the
      text is not JSON), `str()` of a non-string value, and `float()` of a string. */
  datatype Decoders = Decoders(
    loads: string -> Option<Json>,
    show: Json -> string,
    parseFloat: string -> Option<real>)

  const Fence: string := "```"

  /** The text `_parse_payload` hands to `json.loads`: the stripped reply, or, when that opens
      with a fence, what follows the fence's first line up to the closing fence. A fence with no
      line break after it has no second part to take: `split("\n", 1)[1]` raises IndexError. */
  function StripFence(text: string): (r: Result<string>)
    ensures !StartsWith(Strip(text), Fence) ==> r == Ok(Strip(text))
    ensures StartsWith(Strip(text), Fence) ==> (r.Err? <==> '\n' !in Strip(text))
    ensures r.Err? ==> r.error.kind == IndexError
    ensures StartsWith(Strip(text), Fence) && r.Ok? ==>
              FencedBody(Strip(text)[CharIndex(Strip(text), '\n') + 1..], r.value)
  {
    var cleaned := Strip(text);
    if StartsWith(cleaned, Fence) then FencedPart(cleaned) else Ok(cleaned)
  }

  /** The fenced branch of `_parse_payload` on the stripped text: what follows the first line
      break, up to the closing fence; IndexError when there is no line break. */
  function FencedPart(cleaned: string): (r: Result<string>)
    ensures r.Err? <==> '\n' !in cleaned
    ensures r.Err? ==> r.error.kind == IndexError
    ensures r.Ok? ==> FencedBody(cleaned[CharIndex(cleaned, '\n') + 1..], r.value)
  {
    if '\n' !in cleaned then Err(Failure(IndexError, "list index out of range"))
    else Ok(BeforeFence(cleaned[CharIndex(cleaned, '\n') + 1..]))
  }

  /** `rest.split("```", 1)[0]`: the text after the opening line, up to the closing fence. */
  function BeforeFence(rest: string): (body: string)
    ensures FencedBody(rest, body)
  {
    match IndexOf(rest, Fence)
    case None => rest
    case Some(j) =>
      BeforeFirstOccurrence(rest, Fence);
      rest[..j]
  }

  /** A reply with nothing to strip that does not open with a backtick is taken as it is. */
  lemma UnfencedKept(text: string)
    requires |text| > 0 && !IsSpace(text[0]) && !IsSpace(text[|text| - 1]) && text[0] != '`'
    ensures Strip(text) == text && StripFence(text) == Ok(text)
  {
    StripNoSpace(text);
    assert !StartsWith(text, Fence) by { assert text[0] != Fence[0]; }
  }

  /** `body` is `rest` cut before its first fence: a prefix with no fence in it, followed in
      `rest` by a fence unless it is all of `rest`. */
  predicate FencedBody(rest: string, body: string) {
    && |body| <= |rest| && body == rest[..|body|]
    && !Contains(body, Fence)
    && (body == rest || StartsWith(rest[|body|..], Fence))
  }

  /** `record.id or -1`: an unsaved record, and also id 0, which Python reads as false. */
  function CaptureIdOf(id: Option<int>): (r: int)
    ensures id.Some? && id.value != 0 ==> r == id.value
    ensures id.None? || id == Some(0) ==> r == -1
  {
    if id.Some? && id.value != 0 then id.value else -1
  }

  /** `payload.get(key) or fallback` for a text field; a non-string value is kept as its `str()` text. */
  function TextField(dec: Decoders, fields: seq<(string, Json)>, key: string, fallback: string): (r: string)
    ensures Get(fields, key).None? ==> r == fallback
    ensures Get(fields, key).Some? && !Truthy(Get(fields, key).value) ==> r == fallback
    ensures forall s :: Get(fields, key) == Some(JStr(s)) && s != "" ==> r == s
    ensures Get(fields, key).Some? && Truthy(Get(fields, key).value) && !Get(fields, key).value.JStr?
            ==> r == dec.show(Get(fields, key).value)
  {
    match Get(fields, key)
    case Some(v) => if Truthy(v) then Str(dec.show, v) else fallback
    case None => fallback
  }

  /** `[str(tag) for tag in (payload.get("tags") or [])]`: a false value gives no tags; iterating
      a list yields its items, a string its characters, an object its keys; a number or `true`
      is not iterable. */
  function TagTexts(dec: Decoders, tags: Json): (r: Result<seq<string>>)
    ensures !Truthy(tags) ==> r == Ok([])
    ensures tags.JArr? ==> r == Ok(ShowAll(dec.show, tags.items))
    ensures tags.JStr? ==> r == Ok(Characters(tags.s))
    ensures tags.JObj? ==> r == Ok(Keys(tags.fields))
    ensures r.Err? <==> Truthy(tags) && (tags.JNum? || tags.JBool?)
  {
    if !Truthy(tags) then Ok([])
    else
      match tags
      case JArr(items) => Ok(ShowAll(dec.show, items))
      case JStr(s) => Ok(Characters(s))
      case JObj(fields) => Ok(Keys(fields))
      case _ => Err(Failure(TypeError, "object is not iterable"))
  }

  function ShowAll(show: Json -> string, items: seq<Json>): (r: seq<string>)
    ensures |r| == |items| && forall i :: 0 <= i < |items| ==> r[i] == Str(show, items[i])
  {
    seq(|items|, i requires 0 <= i < |items| => Str(show, items[i]))
  }

  /** The one-character strings iterating a string yields. */
  function Characters(s: string): (r: seq<string>)
    ensures |r| == |s| && forall i :: 0 <= i < |s| ==> r[i] == [s[i]]
  {
    seq(|s|, i requires 0 <= i < |s| => [s[i]])
  }

  const DefaultConfidence: real := 0.6
  const Unclassified: string := "Unclassified"

  /** The normalisation both `analyze` methods apply to the parsed payload. `text` is the reply
      (already "{}" when the model returned nothing); it becomes the raw response, and its stripped
      form stands in for a missing description. Python evaluates `float(confidence)` before it
      iterates the tags, so a bad confidence is the error reported when both are bad. */
  function Normalize(dec: Decoders, payload: Json, text: string, id: Option<int>): (r: Result<AnalysisResult>)
    ensures !payload.JObj? ==> r.Err? && r.error.kind == AttributeError
    ensures r.Ok? ==> r.value.capture_id == CaptureIdOf(id) && r.value.raw_response == Some(text)
    ensures r.Ok? ==> r.value.description == TextField(dec, payload.fields, "description", Strip(text))
    ensures r.Ok? ==> r.value.primary_task == TextField(dec, payload.fields, "primary_task", Unclassified)
    ensures payload.JObj? && Get(payload.fields, "confidence").None? && !Truthy(GetOr(payload.fields, "tags", JNull))
            ==> r.Ok? && r.value.confidence == DefaultConfidence && r.value.tags == []
    ensures payload.JObj? && Get(payload.fields, "confidence") == Some(JNull) ==> r.Err? && r.error.kind == TypeError
    ensures r.Ok? <==> payload.JObj? && PyFloat(dec.parseFloat, GetOr(payload.fields, "confidence", JNum(DefaultConfidence))).Ok?
                       && TagTexts(dec, GetOr(payload.fields, "tags", JNull)).Ok?
    ensures r.Ok? ==> r.value.confidence == PyFloat(dec.parseFloat, GetOr(payload.fields, "confidence", JNum(DefaultConfidence))).value
                      && r.value.tags == TagTexts(dec, GetOr(payload.fields, "tags", JNull)).value
    ensures payload.JObj? && PyFloat(dec.parseFloat, GetOr(payload.fields, "confidence", JNum(DefaultConfidence))).Err?
            ==> r == Err(PyFloat(dec.parseFloat, GetOr(payload.fields, "confidence", JNum(DefaultConfidence))).error)
  {
    if !payload.JObj? then Err(Failure(AttributeError, "'get' is not an attribute of the decoded value"))
    else
      var f := payload.fields;
      var description := TextField(dec, f, "description", Strip(text));
      var task := TextField(dec, f, "primary_task", Unclassified);
      var confidence :- PyFloat(dec.parseFloat, GetOr(f, "confidence", JNum(DefaultConfidence)));
      var tags :- TagTexts(dec, GetOr(f, "tags", JNull));
      Ok(AnalysisResult(
        capture_id := CaptureIdOf(id),
        description := description,
        primary_task := task,
        confidence := confidence,
        tags := tags,
        raw_response := Some(text)))
  }

  /** `response.text or "{}"`: the reply text, or an empty JSON object when the model said nothing. */
  function ReplyText(text: string): (r: string)
    ensures r != ""
    ensures text != "" ==> r == text
  {
    if text == "" then "{}" else text
  }

  /** An empty payload gives the stripped reply as the description, "Unclassified", no tags and
      the default confidence. */
  lemma NormalizeEmptyPayload(dec: Decoders, text: string, id: Option<int>)
    ensures Normalize(dec, JObj([]), text, id)
            == Ok(AnalysisResult(CaptureIdOf(id), Strip(text), Unclassified, DefaultConfidence, [], Some(text)))
  {
  }

  /** A payload holding only a non-empty description keeps it, and takes every other default. */
  lemma NormalizeDescriptionOnly(dec: Decoders, d: string, text: string, id: Option<int>)
    requires d != ""
    ensures Normalize(dec, JObj([("description", JStr(d))]), text, id)
            == Ok(AnalysisResult(CaptureIdOf(id), d, Unclassified, DefaultConfidence, [], Some(text)))
  {
    assert Get([("description", JStr(d))], "description") == Some(JStr(d));
  }

  /** A confidence the float parser cannot read is a ValueError, not the default. */
  lemma NormalizeBadConfidence(dec: Decoders, fields: seq<(string, Json)>, text: string, id: Option<int>, s: string)
    requires Get(fields, "confidence") == Some(JStr(s)) && dec.parseFloat(s).None?
    ensures Normalize(dec, JObj(fields), text, id).Err?
    ensures Normalize(dec, JObj(fields), text, id).error.kind == ValueError
  {
  }

  /** A numeric confidence from the model is kept as it is; the default 0.6 is used only when
      the key is absent. */
  lemma NormalizeKeepsConfidence(dec: Decoders, fields: seq<(string, Json)>, text: string, id: Option<int>, c: real)
    requires Get(fields, "confidence") == Some(JNum(c))
    requires TagTexts(dec, GetOr(fields, "tags", JNull)).Ok?
    ensures Normalize(dec, JObj(fields), text, id).Ok?
    ensures Normalize(dec, JObj(fields), text, id).value.confidence == c
  {
  }

  /** A list of tags is stored as the `str()` text of each item, in order. */
  lemma NormalizeStringifiesTags(dec: Decoders, fields: seq<(string, Json)>, text: string, id: Option<int>, items: seq<Json>)
    requires Get(fields, "tags") == Some(JArr(items))
    requires PyFloat(dec.parseFloat, GetOr(fields, "confidence", JNum(DefaultConfidence))).Ok?
    ensures Normalize(dec, JObj(fields), text, id).Ok?
    ensures |Normalize(dec, JObj(fields), text, id).value.tags| == |items|
    ensures forall i :: 0 <= i < |items| ==> Normalize(dec, JObj(fields), text, id).value.tags[i] == Str(dec.show, items[i])
  {
  }

  /** A present string description and task are kept as they are. */
  lemma NormalizeKeepsFields(dec: Decoders, fields: seq<(string, Json)>, text: string, id: Option<int>, d: string, t: string)
    requires Get(fields, "description") == Some(JStr(d)) && d != ""
    requires Get(fields, "primary_task") == Some(JStr(t)) && t != ""
    requires Normalize(dec, JObj(fields), text, id).Ok?
    ensures Normalize(dec, JObj(fields), text, id).value.description == d
    ensures Normalize(dec, JObj(fields), text, id).value.primary_task == t
  {
  }
}
