/** The analyser that talks to a local OpenAI-compatible chat endpoint such as LM Studio
    (mirulog/local_llm_client.py). HTTP requests, reading and base64-encoding the image, the
    clock-free parts of Python's runtime and the filesystem check are oracles. */
module LocalLlmClient {
  import opened Wrappers
  import opened Text
  import opened JsonValue
  import opened Times
  import opened Models
  import opened LlmResponse

  /** The client's settings. The configuration module does not define this record; its fields
      are the ones the client reads. */
  datatype LocalLLMSettings = LocalLLMSettings(
    base_url: string,
    api_key: Option<string>,
    model: Option<string>,
    max_tokens: int,
    temperature: real,
    timeout_seconds: real)

  /** What one HTTP exchange gave: a response, or a `requests.RequestException` with its text. */
  datatype HttpResponse = HttpResponse(status: int, body: string)
  datatype HttpOutcome = Responded(response: HttpResponse) | RequestFailed(message: string)

  /** One POST as sent: the URL, the headers and the JSON body. */
  datatype Request = Request(url: string, headers: seq<(string, string)>, payload: Json)

  const SystemPrompt: string :=
    "You are Miru-Log, a meticulous self-tracking assistant. You receive desktop screenshots and contextual metadata.\n"
    + "Analyze what the user was doing. Respond strictly as compact JSON with keys:\n"
    + "  - description: 1 sentence summary of the activity.\n"
    + "  - primary_task: concise task label (<=6 words).\n"
    + "  - tags: array of activity tags/keywords.\n"
    + "  - confidence: float between 0 and 1 reflecting your certainty.\n"
    + "    - observed_files: array of file paths/names you can read from the screenshot (if any).\n"
    + "    - observed_repositories: array of repository/workspace names you can read from the screenshot (if any).\n"
    + "    - observed_urls: array of http(s) URLs you can read from the screenshot (if any).\n"
    + "All values must be written in Japanese. The JSON keys must remain in English as listed above.\n"
    + "Focus on observable actions only.\n"
    + "If you cannot confidently read items, return empty arrays for those keys."

  // ---- `_rdp_hint` ----

  const RdpTitleKeywords: seq<string> := ["リモート デスクトップ", "remote desktop", "rdp", "mstsc", "msrdc"]
  const RdpProcessNames: set<string> := {"mstsc.exe", "msrdc.exe", "remotedesktop.exe"}

  const RdpHintText: string :=
    "\nIMPORTANT (RDP): If this screenshot is from Remote Desktop, do NOT summarize as just 'using remote desktop'. "
    + "Describe what is happening inside the remote session (apps, code, browser, docs, errors) based on what you see. "
    + "Only mention RDP as a note if you cannot infer the actual work.\n"

  /** The window looks like a Remote Desktop session: its lower-cased title mentions one of the
      keywords, or the process is one of the Remote Desktop clients. */
  predicate IsRdp(title: Option<string>, process: Option<string>) {
    (exists i :: 0 <= i < |RdpTitleKeywords| && Contains(Lower(title.GetOr("")), RdpTitleKeywords[i]))
    || Lower(process.GetOr("")) in RdpProcessNames
  }

  /** `_rdp_hint`: an instruction to look inside the remote session, or nothing. */
  function RdpHint(title: Option<string>, process: Option<string>): (r: string)
    ensures r == "" <==> !IsRdp(title, process)
    ensures r != "" ==> r == RdpHintText
  {
    if IsRdp(title, process) then RdpHintText else ""
  }

  /** The process name is compared case-insensitively. */
  lemma RdpByProcess(title: Option<string>)
    ensures RdpHint(title, Some("MSTSC.EXE")) == RdpHintText
    ensures RdpHint(title, Some("msrdc.exe")) == RdpHintText
  {
    assert Lower("MSTSC.EXE") == "mstsc.exe";
    assert Lower("msrdc.exe") == "msrdc.exe";
  }

  /** A title mentioning "RDP" in any letter case asks for the hint. */
  lemma RdpByTitle(prefix: string, suffix: string, process: Option<string>)
    ensures RdpHint(Some(prefix + "RDP" + suffix), process) == RdpHintText
  {
    var t := prefix + "RDP" + suffix;
    var l := Lower(t);
    var n := |prefix|;
    assert l[n..n + 3] == "rdp";
    assert StartsWith(l[n..], "rdp");
    assert Contains(l, RdpTitleKeywords[2]);
  }

  /** `_build_prompt`: the system prompt with the hint for the record's window. A capture record
      has no process name, so only the title can ask for the hint. */
  function BuildPrompt(record: CaptureRecord): (r: string)
    ensures StartsWith(r, SystemPrompt)
    ensures r == SystemPrompt <==> !IsRdp(Some(record.window_title), None)
  {
    SystemPrompt + RdpHint(Some(record.window_title), None)
  }

  // ---- `_resolve_model` ----

  const AutoModelNames: set<string> := {"local-model", "auto"}
  const DefaultModelName: string := "local-model"

  /** `(settings.model or "").strip()`. */
  function ConfiguredModel(s: LocalLLMSettings): string {
    Strip(s.model.GetOr(""))
  }

  /** A configured name is used as it is unless it is empty or a placeholder. */
  predicate UsesConfigured(configured: string) {
    configured != "" && Lower(configured) !in AutoModelNames
  }

  /** `configured or "local-model"`. */
  function FallbackModel(configured: string): (r: string)
    ensures r != ""
  {
    if configured != "" then configured else DefaultModelName
  }

  /** `f"{settings.base_url.rstrip('/')}/models"`. */
  function ModelsUrl(baseUrl: string): string {
    TrimEndChar(baseUrl, '/') + "/models"
  }

  /** The id of the first model a discovery answer lists, when it is a success whose body is an
      object holding a non-empty list whose first entry has a true "id". Every other answer,
      including a body that is not JSON, falls back. */
  function DiscoveredModel(dec: Decoders, res: HttpResponse): (r: Option<string>)
    ensures res.status >= 400 || dec.loads(res.body).None? ==> r.None?
    ensures r.Some? <==>
              && res.status < 400 && dec.loads(res.body).Some?
              && var data := dec.loads(res.body).value;
              && data.JObj? && GetOr(data.fields, "data", JNull).JArr?
              && |GetOr(data.fields, "data", JNull).items| > 0
              && GetOr(data.fields, "data", JNull).items[0].JObj?
              && Truthy(GetOr(GetOr(data.fields, "data", JNull).items[0].fields, "id", JNull))
    ensures r.Some? ==> var data := dec.loads(res.body).value;
                        r.value == Str(dec.show, GetOr(GetOr(data.fields, "data", JNull).items[0].fields, "id", JNull))
  {
    if res.status >= 400 then None
    else
      match dec.loads(res.body)
      case None => None
      case Some(data) =>
        if !data.JObj? then None
        else
          match GetOr(data.fields, "data", JNull)
          case JArr(items) =>
            if |items| > 0 && items[0].JObj? && Truthy(GetOr(items[0].fields, "id", JNull))
            then Some(Str(dec.show, GetOr(items[0].fields, "id", JNull)))
            else None
          case _ => None
  }

  /** `_resolve_model`: the configured model, else the first model the server lists, else the
      configured text or "local-model". `discover` answers the GET of the models endpoint. */
  function ResolveModel(dec: Decoders, s: LocalLLMSettings, discover: string -> HttpOutcome): (r: string)
    ensures UsesConfigured(ConfiguredModel(s)) ==> r == ConfiguredModel(s)
    ensures !UsesConfigured(ConfiguredModel(s)) && discover(ModelsUrl(s.base_url)).RequestFailed?
            ==> r == FallbackModel(ConfiguredModel(s))
    ensures !UsesConfigured(ConfiguredModel(s)) && discover(ModelsUrl(s.base_url)).Responded?
            && discover(ModelsUrl(s.base_url)).response.status >= 400
            ==> r == FallbackModel(ConfiguredModel(s))
    ensures !UsesConfigured(ConfiguredModel(s)) ==>
              r == FallbackModel(ConfiguredModel(s))
              || (discover(ModelsUrl(s.base_url)).Responded?
                  && Some(r) == DiscoveredModel(dec, discover(ModelsUrl(s.base_url)).response))
    ensures !UsesConfigured(ConfiguredModel(s)) && discover(ModelsUrl(s.base_url)).Responded?
            && DiscoveredModel(dec, discover(ModelsUrl(s.base_url)).response).Some?
            ==> r == DiscoveredModel(dec, discover(ModelsUrl(s.base_url)).response).value
    ensures !UsesConfigured(ConfiguredModel(s)) && discover(ModelsUrl(s.base_url)).Responded?
            && DiscoveredModel(dec, discover(ModelsUrl(s.base_url)).response).None?
            ==> r == FallbackModel(ConfiguredModel(s))
  {
    var configured := ConfiguredModel(s);
    if UsesConfigured(configured) then configured
    else
      match discover(ModelsUrl(s.base_url))
      case RequestFailed(_) => FallbackModel(configured)
      case Responded(res) => DiscoveredModel(dec, res).GetOr(FallbackModel(configured))
  }

  /** With a placeholder configured, a models listing whose first entry has a string id selects
      that id, whatever else the listing holds. */
  lemma ListedModelSelected(dec: Decoders, s: LocalLLMSettings, discover: string -> HttpOutcome,
                            id: string, more: seq<Json>, rest: seq<(string, Json)>)
    requires !UsesConfigured(ConfiguredModel(s)) && id != ""
    requires discover(ModelsUrl(s.base_url)).Responded?
    requires discover(ModelsUrl(s.base_url)).response.status < 400
    requires dec.loads(discover(ModelsUrl(s.base_url)).response.body)
             == Some(JObj([("data", JArr([JObj([("id", JStr(id))])] + more))] + rest))
    ensures ResolveModel(dec, s, discover) == id
  {
    var entries := [JObj([("id", JStr(id))])] + more;
    assert Get([("data", JArr(entries))] + rest, "data") == Some(JArr(entries));
    assert entries[0] == JObj([("id", JStr(id))]);
    assert GetOr(entries[0].fields, "id", JNull) == JStr(id);
  }

  /** A placeholder name starts discovery, and is kept in its own spelling when discovery
      fails: a configured "Auto" stays "Auto" rather than becoming "local-model". */
  lemma PlaceholderKeptOnFailure(dec: Decoders, s: LocalLLMSettings, discover: string -> HttpOutcome)
    requires ConfiguredModel(s) != "" && Lower(ConfiguredModel(s)) in AutoModelNames
    requires discover(ModelsUrl(s.base_url)).RequestFailed?
    ensures ResolveModel(dec, s, discover) == ConfiguredModel(s)
  {
  }

  /** The analyser object: its settings and the model chosen once, when it is created. */
  datatype LocalLLMAnalyzer = LocalLLMAnalyzer(settings: LocalLLMSettings, model: string)

  /** `LocalLLMAnalyzer.__init__`. */
  function NewAnalyzer(dec: Decoders, s: LocalLLMSettings, discover: string -> HttpOutcome): (a: LocalLLMAnalyzer)
    ensures a.settings == s
    ensures UsesConfigured(ConfiguredModel(s)) ==> a.model == ConfiguredModel(s)
  {
    LocalLLMAnalyzer(s, ResolveModel(dec, s, discover))
  }

  // ---- the chat request ----

  function ChatUrl(baseUrl: string): string {
    baseUrl + "/chat/completions"
  }

  /** The JSON content type, and a bearer token when an API key is set. */
  function ChatHeaders(apiKey: Option<string>): (h: seq<(string, string)>)
    ensures |h| >= 1 && h[0] == ("Content-Type", "application/json")
    ensures |h| == 2 <==> apiKey.Some? && apiKey.value != ""
    ensures |h| == 2 ==> h[1] == ("Authorization", "Bearer " + apiKey.value)
  {
    [("Content-Type", "application/json")]
    + (if apiKey.Some? && apiKey.value != "" then [("Authorization", "Bearer " + apiKey.value)] else [])
  }

  function ImageDataUrl(encoded: string): string {
    "data:image/png;base64," + encoded
  }

  /** The chat body: the model, the sampling settings, no streaming, and two messages, the
      system prompt and the user's text with the image. */
  function ChatPayload(model: string, s: LocalLLMSettings, system: string, userText: string, imageUrl: string): (j: Json)
    ensures j.JObj? && Get(j.fields, "response_format").None?
  {
    var fields := [
      ("model", JStr(model)),
      ("temperature", JNum(s.temperature)),
      ("max_tokens", JNum(s.max_tokens as real)),
      ("stream", JBool(false)),
      ("messages", JArr([
        JObj([("role", JStr("system")), ("content", JStr(system))]),
        JObj([("role", JStr("user")),
              ("content", JArr([
                JObj([("type", JStr("text")), ("text", JStr(userText))]),
                JObj([("type", JStr("image_url")), ("image_url", JObj([("url", JStr(imageUrl))]))])]))])]))];
    assert Keys(fields) == ["model", "temperature", "max_tokens", "stream", "messages"];
    JObj(fields)
  }

  const JsonObjectFormat: Json := JObj([("type", JStr("json_object"))])

  /** The body with `response_format` asking for a JSON object; every other key is unchanged. */
  function WithFormat(payload: Json): (j: Json)
    requires payload.JObj?
    ensures j.JObj? && Get(j.fields, "response_format") == Some(JsonObjectFormat)
    ensures forall k :: k != "response_format" ==> Get(j.fields, k) == Get(payload.fields, k)
  {
    JObj(Put(payload.fields, "response_format", JsonObjectFormat))
  }

  /** `_post_with_fallback`: the body with `response_format` first; only a 400 or 422 answer
      sends the plain body, once, and its answer is final. A transport failure is a RuntimeError. */
  method PostWithFallback(url: string, headers: seq<(string, string)>, primary: Json, fallback: Json,
                          post: Request -> HttpOutcome)
    returns (sent: seq<Request>, res: Result<HttpResponse>)
    ensures 1 <= |sent| <= 2 && sent[0] == Request(url, headers, primary)
    ensures forall k :: 0 <= k < |sent| ==> sent[k].url == url && sent[k].headers == headers
    ensures |sent| == 2 <==> post(sent[0]).Responded? && post(sent[0]).response.status in {400, 422}
    ensures |sent| == 2 ==> sent[1] == Request(url, headers, fallback)
    ensures res.Ok? <==> post(sent[|sent| - 1]).Responded?
    ensures res.Ok? ==> res.value == post(sent[|sent| - 1]).response
    ensures res.Err? ==> res.error == Failure(Runtime, "Local LLM request failed: " + post(sent[|sent| - 1]).message)
  {
    var first := Request(url, headers, primary);
    sent := [first];
    match post(first)
    case RequestFailed(m) =>
      res := Err(Failure(Runtime, "Local LLM request failed: " + m));
    case Responded(r) =>
      if r.status in {400, 422} {
        var second := Request(url, headers, fallback);
        sent := sent + [second];
        match post(second)
        case RequestFailed(m) =>
          res := Err(Failure(Runtime, "Local LLM request failed: " + m));
        case Responded(r2) =>
          res := Ok(r2);
      } else {
        res := Ok(r);
      }
  }

  // ---- the reply's text ----

  /** `(choices or [{}])[0]`: the first choice, an empty object when there are none. Indexing a
      non-empty object by 0 is a KeyError, a number or `true` is not subscriptable, and a
      string gives its first character. */
  function FirstChoice(choices: Json): (r: Result<Json>)
    ensures !Truthy(choices) ==> r == Ok(JObj([]))
    ensures choices.JArr? && |choices.items| > 0 ==> r == Ok(choices.items[0])
  {
    if !Truthy(choices) then Ok(JObj([]))
    else
      match choices
      case JArr(items) => Ok(items[0])
      case JStr(s) => Ok(JStr([s[0]]))
      case JObj(_) => Err(Failure(KeyError, "0"))
      case _ => Err(Failure(TypeError, "object is not subscriptable"))
  }

  /** `((data.get("choices") or [{}])[0].get("message") or {}).get("content")`, JNull standing
      for Python's None. Calling `.get` on anything but an object is an AttributeError. */
  function MessageContent(data: Json): (r: Result<Json>)
    ensures !data.JObj? ==> r.Err? && r.error.kind == AttributeError
    ensures data.JObj? && Get(data.fields, "choices").None? ==> r == Ok(JNull)
    ensures data.JObj? && FirstChoice(GetOr(data.fields, "choices", JNull)).Err?
            ==> r == Err(FirstChoice(GetOr(data.fields, "choices", JNull)).error)
    ensures data.JObj? && FirstChoice(GetOr(data.fields, "choices", JNull)).Ok?
            ==> var first := FirstChoice(GetOr(data.fields, "choices", JNull)).value;
                var m := if first.JObj? then GetOr(first.fields, "message", JNull) else JNull;
                && (!first.JObj? ==> r.Err? && r.error.kind == AttributeError)
                && (first.JObj? && !Truthy(m) ==> r == Ok(JNull))
                && (first.JObj? && Truthy(m) && m.JObj? ==> r == Ok(GetOr(m.fields, "content", JNull)))
                && (first.JObj? && Truthy(m) && !m.JObj? ==> r.Err? && r.error.kind == AttributeError)
    ensures data.JObj? ==> var cs := GetOr(data.fields, "choices", JNull);
              cs.JArr? && |cs.items| > 0 && cs.items[0].JObj? ==> var m := GetOr(cs.items[0].fields, "message", JNull);
              m.JObj? ==> r == Ok(GetOr(m.fields, "content", JNull))
  {
    if !data.JObj? then Err(Failure(AttributeError, "'get' is not an attribute of the reply"))
    else
      var first :- FirstChoice(GetOr(data.fields, "choices", JNull));
      if !first.JObj? then Err(Failure(AttributeError, "'get' is not an attribute of the choice"))
      else
        var m := GetOr(first.fields, "message", JNull);
        var message := if Truthy(m) then m else JObj([]);
        if !message.JObj? then Err(Failure(AttributeError, "'get' is not an attribute of the message"))
        else Ok(GetOr(message.fields, "content", JNull))
  }

  /** The text a content part contributes: `str(item.get("text") or "")` for an object whose
      "type" is "text", nothing for any other part. */
  function TextPart(dec: Decoders, item: Json): Option<string> {
    if item.JObj? && Get(item.fields, "type") == Some(JStr("text")) then
      var t := GetOr(item.fields, "text", JNull);
      Some(if Truthy(t) then Str(dec.show, t) else "")
    else None
  }

  /** The `parts` list the loop over a list content builds, in order. */
  function TextParts(dec: Decoders, items: seq<Json>): seq<string> {
    if |items| == 0 then []
    else
      var last := items[|items| - 1];
      TextParts(dec, items[..|items| - 1]) + (if TextPart(dec, last).Some? then [TextPart(dec, last).value] else [])
  }

  /** The non-empty strings of `parts`, in order. */
  function NonEmpty(parts: seq<string>): (r: seq<string>)
    ensures forall k :: 0 <= k < |r| ==> r[k] != ""
    ensures forall p :: p in r <==> p in parts && p != ""
  {
    if |parts| == 0 then []
    else (if parts[0] != "" then [parts[0]] else []) + NonEmpty(parts[1..])
  }

  /** The text of a list content: its text parts' strings, empty ones dropped, one per line. */
  function JoinedText(dec: Decoders, items: seq<Json>): string {
    Join("\n", NonEmpty(TextParts(dec, items)))
  }

  /** The loop of `_chat_with_image` over a list content, then the join of its non-empty parts. */
  method JoinTextParts(dec: Decoders, items: seq<Json>) returns (text: string)
    ensures text == JoinedText(dec, items)
  {
    var parts: seq<string> := [];
    for i := 0 to |items|
      invariant parts == TextParts(dec, items[..i])
    {
      assert items[..i + 1][..i] == items[..i];
      var item := items[i];
      if item.JObj? && Get(item.fields, "type") == Some(JStr("text")) {
        var t := GetOr(item.fields, "text", JNull);
        parts := parts + [if Truthy(t) then Str(dec.show, t) else ""];
      }
    }
    assert items[..|items|] == items;
    text := Join("\n", NonEmpty(parts));
  }

  /** Reading the joined text back line by line gives the non-empty text parts, when none of
      them spans several lines. */
  lemma JoinedTextLines(dec: Decoders, items: seq<Json>)
    requires |NonEmpty(TextParts(dec, items))| >= 1
    requires forall p :: p in TextParts(dec, items) ==> '\n' !in p
    ensures Split(JoinedText(dec, items), '\n') == NonEmpty(TextParts(dec, items))
  {
    var parts := NonEmpty(TextParts(dec, items));
    forall k | 0 <= k < |parts| ensures '\n' !in parts[k] {
      assert parts[k] in parts;
    }
    SplitJoin(parts, '\n');
    assert Join(['\n'], parts) == Join("\n", parts);
  }

  /** The text `_chat_with_image` makes of the content: a string as it is, a list as its joined
      text parts, anything else (None included) as "{}". */
  function ContentText(dec: Decoders, content: Json): (r: string)
    ensures content.JStr? ==> r == content.s
    ensures content.JArr? ==> r == JoinedText(dec, content.items)
    ensures !content.JStr? && !content.JArr? ==> r == "{}"
  {
    match content
    case JStr(s) => s
    case JArr(items) => JoinedText(dec, items)
    case _ => "{}"
  }

  /** The reply text the final HTTP outcome gives: an error for a transport failure, for a
      status of 400 or more, for a body that is not JSON or for a malformed reply shape. */
  function ReplyOf(dec: Decoders, final: HttpOutcome): (r: Result<string>)
    ensures final.RequestFailed? ==> r.Err? && r.error.kind == Runtime
    ensures final.Responded? && final.response.status >= 400 ==> r.Err? && r.error.kind == Runtime
    ensures final.Responded? ==> r == ResponseReply(dec, final.response)
  {
    match final
    case RequestFailed(m) => Err(Failure(Runtime, "Local LLM request failed: " + m))
    case Responded(res) => ResponseReply(dec, res)
  }

  /** The reply text of an answered request: `res.json()` and the content lookup, after the
      status check. */
  function ResponseReply(dec: Decoders, res: HttpResponse): (r: Result<string>)
    ensures res.status >= 400 ==> r.Err? && r.error.kind == Runtime
    ensures res.status < 400 && dec.loads(res.body).None? ==> r.Err? && r.error.kind == ValueError
    ensures res.status < 400 && dec.loads(res.body).Some? && MessageContent(dec.loads(res.body).value).Err?
            ==> r == Err(MessageContent(dec.loads(res.body).value).error)
    ensures res.status < 400 && dec.loads(res.body).Some? && MessageContent(dec.loads(res.body).value).Ok?
            ==> r == Ok(ContentText(dec, MessageContent(dec.loads(res.body).value).value))
  {
    if res.status >= 400 then Err(Failure(Runtime, "Local LLM HTTP " + NatToString(res.status) + ": " + res.body))
    else
      match dec.loads(res.body)
      case None => Err(Failure(ValueError, "response body is not JSON"))
      case Some(data) =>
        var content :- MessageContent(data);
        Ok(ContentText(dec, content))
  }

  /** The steps of `_chat_with_image` after the POST: the status check, `res.json()`, the content
      lookup and, for a list content, the loop over its parts. */
  method ReadReply(dec: Decoders, res: HttpResponse) returns (r: Result<string>)
    ensures r == ResponseReply(dec, res)
  {
    if res.status >= 400 {
      r := Err(Failure(Runtime, "Local LLM HTTP " + NatToString(res.status) + ": " + res.body));
      return;
    }
    match dec.loads(res.body)
    case None =>
      r := Err(Failure(ValueError, "response body is not JSON"));
    case Some(data) =>
      var content := MessageContent(data);
      if content.Err? {
        r := Err(content.error);
      } else if content.value.JArr? {
        var joined := JoinTextParts(dec, content.value.items);
        r := Ok(joined);
      } else {
        r := Ok(ContentText(dec, content.value));
      }
  }

  /** `_chat_with_image`: posts the chat body (with the JSON-format request first), and turns the
      final answer into the reply text. */
  method ChatWithImage(dec: Decoders, a: LocalLLMAnalyzer, system: string, userText: string, encodedImage: string,
                       post: Request -> HttpOutcome)
    returns (sent: seq<Request>, r: Result<string>)
    ensures 1 <= |sent| <= 2
    ensures forall k :: 0 <= k < |sent| ==>
              sent[k].url == ChatUrl(a.settings.base_url) && sent[k].headers == ChatHeaders(a.settings.api_key)
    ensures sent[0].payload == WithFormat(ChatPayload(a.model, a.settings, system, userText, ImageDataUrl(encodedImage)))
    ensures |sent| == 2 <==> post(sent[0]).Responded? && post(sent[0]).response.status in {400, 422}
    ensures |sent| == 2 ==> sent[1].payload == ChatPayload(a.model, a.settings, system, userText, ImageDataUrl(encodedImage))
    ensures r == ReplyOf(dec, post(sent[|sent| - 1]))
  {
    var url := ChatUrl(a.settings.base_url);
    var headers := ChatHeaders(a.settings.api_key);
    var payload := ChatPayload(a.model, a.settings, system, userText, ImageDataUrl(encodedImage));
    var res;
    sent, res := PostWithFallback(url, headers, WithFormat(payload), payload, post);
    if res.Err? {
      r := Err(res.error);
    } else {
      r := ReadReply(dec, res.value);
    }
  }

  // ---- `_parse_payload` ----

  /** The match of `\{[\s\S]*\}`: from the first '{' to the last '}', when that '}' comes after it. */
  function Salvage(s: string): (r: Option<string>)
    ensures r.Some? ==> exists a, b :: 0 <= a < b < |s| && s[a] == '{' && s[b] == '}'
                          && '{' !in s[..a] && '}' !in s[b + 1..] && r.value == s[a..b + 1]
    ensures r.None? ==> forall a, b :: 0 <= a < b < |s| && s[a] == '{' ==> s[b] != '}'
  {
    match FindChar(s, '{')
    case None => None
    case Some(a) =>
      match RFindChar(s, '}')
      case None => None
      case Some(b) =>
        if a < b then Some(s[a..b + 1])
        else
          assert forall x :: 0 <= x < a ==> s[..a][x] == s[x];
          assert forall y :: b < y < |s| ==> s[b + 1..][y - b - 1] == s[y];
          None
  }

  /** `_parse_payload` of the local client: the fenced body is decoded; failing that, the
      salvaged object is; failing that too, the payload is the empty object. */
  function ParsePayload(dec: Decoders, text: string): (r: Result<Json>)
    ensures StripFence(text).Err? ==> r == Err(StripFence(text).error)
    ensures StripFence(text).Ok? ==> r.Ok?
    ensures StripFence(text).Ok? && dec.loads(StripFence(text).value).Some?
            ==> r == Ok(dec.loads(StripFence(text).value).value)
    ensures StripFence(text).Ok? && dec.loads(StripFence(text).value).None? && Salvage(StripFence(text).value).None?
            ==> r == Ok(JObj([]))
    ensures StripFence(text).Ok? && dec.loads(StripFence(text).value).None? && Salvage(StripFence(text).value).Some?
            && dec.loads(Salvage(StripFence(text).value).value).Some?
            ==> r == Ok(dec.loads(Salvage(StripFence(text).value).value).value)
    ensures StripFence(text).Ok? && dec.loads(StripFence(text).value).None? && Salvage(StripFence(text).value).Some?
            && dec.loads(Salvage(StripFence(text).value).value).None?
            ==> r == Ok(JObj([]))
  {
    var cleaned :- StripFence(text);
    match dec.loads(cleaned)
    case Some(j) => Ok(j)
    case None =>
      match Salvage(cleaned)
      case None => Ok(JObj([]))
      case Some(candidate) => Ok(dec.loads(candidate).GetOr(JObj([])))
  }

  /** What `analyze` makes of the reply text. */
  function AnalyzeReply(dec: Decoders, reply: string, id: Option<int>): (r: Result<AnalysisResult>)
    ensures r.Ok? ==> r.value.capture_id == CaptureIdOf(id) && r.value.raw_response == Some(ReplyText(reply))
  {
    var text := ReplyText(reply);
    var payload :- ParsePayload(dec, text);
    Normalize(dec, payload, text, id)
  }

  const ProseReply: string := "Sure! ```json\n{\"description\":\"x\"}\n```"
  const ProseObject: string := "{\"description\":\"x\"}"

  /** The prose reply has no whitespace to strip and does not open with a fence. */
  lemma ProseNotFenced()
    ensures Strip(ProseReply) == ProseReply
    ensures StripFence(ProseReply) == Ok(ProseReply)
  {
    var t := ProseReply;
    assert t[0] == 'S' && t[|t| - 1] == '`';
    UnfencedKept(t);
  }

  /** The salvage takes the braces inside the fence. */
  lemma SalvageProse()
    ensures Salvage(ProseReply) == Some(ProseObject)
  {
    ProseFirstOpen();
    ProseLastClose();
    ProseObjectInside();
  }

  lemma ProseObjectInside()
    ensures ProseReply[14..33] == ProseObject
  {
    assert ProseReply == "Sure! ```json\n" + ProseObject + "\n```";
  }

  lemma ProseFirstOpen()
    ensures FindChar(ProseReply, '{') == Some(14)
  {
    var t := ProseReply;
    assert t[14] == '{';
    assert forall k :: 0 <= k < 14 ==> t[k] != '{';
    FindCharAt(t, '{', 14);
  }

  lemma ProseLastClose()
    ensures RFindChar(ProseReply, '}') == Some(32)
  {
    var t := ProseReply;
    assert |t| == 37 && t[32] == '}';
    assert forall k :: 32 < k < 37 ==> t[k] != '}';
    RFindCharAt(t, '}', 32);
  }

  /** The text before the fence is not JSON, so the object inside the fence is salvaged. */
  lemma ProseAroundFence(dec: Decoders)
    requires dec.loads(ProseReply).None?
    requires dec.loads(ProseObject) == Some(JObj([("description", JStr("x"))]))
    ensures AnalyzeReply(dec, ProseReply, None)
            == Ok(AnalysisResult(-1, "x", Unclassified, DefaultConfidence, [], Some(ProseReply)))
  {
    ParseProse(dec);
    assert ReplyText(ProseReply) == ProseReply;
    NormalizeDescriptionOnly(dec, "x", ProseReply, None);
  }

  lemma ParseProse(dec: Decoders)
    requires dec.loads(ProseReply).None?
    requires dec.loads(ProseObject) == Some(JObj([("description", JStr("x"))]))
    ensures ParsePayload(dec, ProseReply) == Ok(JObj([("description", JStr("x"))]))
  {
    ProseNotFenced();
    SalvageProse();
  }

  /** A reply that is only an opening fence line ("```json" and a line break) strips to the fence
      and its word, which holds no line break: such a reply raises IndexError by
      `UnbrokenFenceRaises`. */
  lemma FenceLineStrips(word: string)
    requires forall k :: 0 <= k < |word| ==> !IsSpace(word[k])
    ensures Strip(Fence + word + "\n") == Fence + word
    ensures StartsWith(Fence + word, Fence) && '\n' !in Fence + word
  {
    var u := Fence + word;
    var t := u + "\n";
    assert u[0] == '`' && !IsSpace(u[|u| - 1]);
    assert TrimStart(t) == t;
    assert t[..|t| - 1] == u;
    StripNoSpace(u);
    assert u[..3] == Fence;
    assert forall k :: 0 <= k < |u| ==> u[k] != '\n';
  }

  /** A reply that opens with a fence but holds no line break has no body to take: IndexError. */
  lemma UnbrokenFenceRaises(dec: Decoders, text: string, id: Option<int>)
    requires text != "" && StartsWith(Strip(text), Fence) && '\n' !in Strip(text)
    ensures AnalyzeReply(dec, text, id).Err? && AnalyzeReply(dec, text, id).error.kind == IndexError
  {
    assert ReplyText(text) == text;
  }

  /** The user message of `analyze`: the capture's time, window and application, one per line. */
  function UserText(record: CaptureRecord, isoformat: DateTime -> string): (t: string)
    ensures StartsWith(t, "Timestamp: ")
  {
    "Timestamp: " + isoformat(record.captured_at) + "\n" + "Window: " + record.window_title + "\n"
    + "Application: " + record.active_application + "\n"
  }

  /** `analyze`: a missing image is FileNotFoundError before any request; otherwise the record's
      time, window and application go to the model with the image, and the reply is parsed and
      normalised. `encode` stands in for reading and base64-encoding the image, `isoformat` for
      `datetime.isoformat`. */
  method Analyze(dec: Decoders, a: LocalLLMAnalyzer, record: CaptureRecord, imageExists: Path -> bool,
                 encode: Path -> string, isoformat: DateTime -> string, post: Request -> HttpOutcome)
    returns (sent: seq<Request>, r: Result<AnalysisResult>)
    ensures !imageExists(record.image_path) ==> sent == [] && r.Err? && r.error.kind == NotFound
    ensures imageExists(record.image_path) ==> 1 <= |sent| <= 2
    ensures imageExists(record.image_path) ==>
              sent[0].payload == WithFormat(ChatPayload(a.model, a.settings, SystemPrompt, UserText(record, isoformat),
                                                        ImageDataUrl(encode(record.image_path))))
    ensures imageExists(record.image_path) && ReplyOf(dec, post(sent[|sent| - 1])).Err?
            ==> r == Err(ReplyOf(dec, post(sent[|sent| - 1])).error)
    ensures imageExists(record.image_path) && ReplyOf(dec, post(sent[|sent| - 1])).Ok?
            ==> r == AnalyzeReply(dec, ReplyOf(dec, post(sent[|sent| - 1])).value, record.id)
    ensures r.Ok? ==> r.value.capture_id == CaptureIdOf(record.id) && r.value.raw_response.Some?
                      && r.value.raw_response.value != ""
  {
    if !imageExists(record.image_path) {
      sent := [];
      r := Err(Failure(NotFound, PathText(record.image_path)));
      return;
    }
    var reply;
    sent, reply := ChatWithImage(dec, a, SystemPrompt, UserText(record, isoformat), encode(record.image_path), post);
    r := AnalyzeOutcome(dec, reply, record.id);
  }

  /** The end of `analyze`: a failed chat is passed on, a reply is parsed and normalised. */
  function AnalyzeOutcome(dec: Decoders, reply: Result<string>, id: Option<int>): (r: Result<AnalysisResult>)
    ensures reply.Err? ==> r == Err(reply.error)
    ensures reply.Ok? ==> r == AnalyzeReply(dec, reply.value, id)
    ensures r.Ok? ==> r.value.capture_id == CaptureIdOf(id) && r.value.raw_response.Some?
                      && r.value.raw_response.value != ""
  {
    if reply.Err? then Err(reply.error) else AnalyzeReply(dec, reply.value, id)
  }
}
