/** The HTTP client layer: `make_coveo_request` (search), `retrieve_passages`
    and `generate_answer`. The network is a parameter: each operation is
    given what the transport produced for its request (`HttpOutcome`), and
    returns the request it sends so that its shape can be stated. JSON
    decoding is the parameter `loads`. */
module CoveoApi {
  import opened PyValues
  import opened PyStrings
  import opened AnswerAssembly

  const UserAgent := "coveo-mcp-server/1.0"
  const EmptyQueryError := "Error: Query cannot be empty"
  const DefaultLocale := "en-US"
  const DefaultTimezone := "America/New_York"

  /** The process configuration, read once from the environment; an unset
      API key or organization id is None. */
  datatype Config = Config(apiKey: Option<string>, organizationId: Option<string>, answerConfigId: string)

  /** The per-call search settings. */
  datatype SearchContext = SearchContext(
    q: string,
    bearerToken: Option<string>,
    organizationId: Option<string>,
    filter: Option<string>,
    locale: string,
    timezone: string,
    context: Option<map<string, Json>>,
    additionalFields: Option<seq<string>>)

  /** `SearchContext(q=query)`: the credential and organization id come from
      the configuration, every other setting takes its default. */
  function NewSearchContext(q: string, cfg: Config): SearchContext {
    SearchContext(q, cfg.apiKey, cfg.organizationId, None, DefaultLocale, DefaultTimezone, None, None)
  }

  datatype HttpMethod = HttpGet | HttpPost
  datatype Endpoint = SearchEndpoint | PassagesEndpoint | AnswerEndpoint

  /** What the client hands to the transport. */
  datatype Request = Request(
    verb: HttpMethod,
    endpoint: Endpoint,
    headers: map<string, Json>,
    params: map<string, Json>,
    body: Option<map<string, Json>>)

  /** What the transport produced: a response with a success status and its
      body, a response whose status `raise_for_status` rejects, or an
      exception raised while sending or receiving. */
  datatype HttpOutcome<T> =
    | Response(value: T)
    | StatusError(code: nat, text: string)
    | RequestError(message: string)

  /** The body of the answer stream: the lines it yields, and, when the
      stream breaks after them, the text of the exception it raises. */
  datatype LineStream = LineStream(lines: seq<string>, cut: Option<string>)

  /** A Python dict that the callee updates in place. */
  class PyDict {
    var entries: map<string, Json>

    constructor (entries: map<string, Json>)
      ensures this.entries == entries
    {
      this.entries := entries;
    }
  }

  function HttpErrorText(code: nat, text: string): string {
    "HTTP " + NatToString(code) + ": " + text
  }

  function ErrorObject(message: string): Json {
    JObj(map["error" := JStr(message)])
  }

  // ---------------------------------------------------------------------
  // make_coveo_request

  function SearchHeaders(cfg: Config): map<string, Json> {
    map[
      "Authorization" := JStr("Bearer " + OptionText(cfg.apiKey)),
      "Content-Type" := JStr("application/json"),
      "User-Agent" := JStr(UserAgent)]
  }

  /** The value `make_coveo_request` returns for what the transport
      produced: the decoded body on success, otherwise a dict whose one key
      is "error", holding "HTTP <code>: <text>" for a rejected status and
      "Request failed: <message>" for any other exception, an undecodable
      body included. */
  function SearchResponse(reply: HttpOutcome<string>, loads: string -> Result<Json, string>): (r: Json)
    ensures reply.Response? && loads(reply.value).Ok? ==> r == loads(reply.value).value
    ensures !(reply.Response? && loads(reply.value).Ok?) ==>
      r.JObj? && r.fields.Keys == {"error"} && r.fields["error"].JStr?
    ensures reply.StatusError? ==> r.fields["error"].s == HttpErrorText(reply.code, reply.text)
    ensures reply.RequestError? ==> r.fields["error"].s == "Request failed: " + reply.message
  {
    match reply
    case StatusError(code, text) => ErrorObject(HttpErrorText(code, text))
    case RequestError(m) => ErrorObject("Request failed: " + m)
    case Response(body) =>
      match loads(body)
      case Ok(data) => data
      case Err(m) => ErrorObject("Request failed: " + m)
  }

  /** Sets the caller's `params["organizationId"]` to the configured id,
      sends the GET, and maps what comes back to a value. */
  method MakeCoveoRequest(params: PyDict, cfg: Config, reply: HttpOutcome<string>, loads: string -> Result<Json, string>)
    returns (sent: Request, data: Json)
    modifies params
    ensures params.entries == old(params.entries)["organizationId" := FromOption(cfg.organizationId)]
    ensures sent == Request(HttpGet, SearchEndpoint, SearchHeaders(cfg), params.entries, None)
    ensures data == SearchResponse(reply, loads)
  {
    var headers := SearchHeaders(cfg);
    params.entries := params.entries["organizationId" := FromOption(cfg.organizationId)];
    sent := Request(HttpGet, SearchEndpoint, headers, params.entries, None);
    data := SearchResponse(reply, loads);
  }

  // ---------------------------------------------------------------------
  // retrieve_passages

  /** The credential test: an OAuth token starts with `x` but not `xx`;
      anything else is an API key. */
  predicate IsOAuthToken(token: string) {
    StartsWith(token, "x") && !StartsWith(token, "xx")
  }

  /** A character-level reading of the credential test: the token's first
      character is `x` and its second, if any, is not. */
  lemma OAuthTokenChars(token: string)
    ensures IsOAuthToken(token) <==> |token| >= 1 && token[0] == 'x' && (|token| == 1 || token[1] != 'x')
  {
    if |token| >= 1 && token[0] == 'x' {
      assert token[..1] == "x";
      if |token| >= 2 {
        assert token[..2] == [token[0], token[1]];
      }
    }
  }

  /** The headers of the passages request: the bearer token and the two
      JSON content headers, plus the organization id for an API key. */
  function PassageHeaders(token: string, org: Json): (h: map<string, Json>)
    ensures h.Keys == {"Authorization", "Content-Type", "accept"} + (if IsOAuthToken(token) then {} else {"organizationId"})
    ensures h["Authorization"] == JStr("Bearer " + token)
    ensures h["Content-Type"] == JStr("application/json") && h["accept"] == JStr("application/json")
    ensures !IsOAuthToken(token) ==> h["organizationId"] == org
  {
    var base := map[
      "Authorization" := JStr("Bearer " + token),
      "Content-Type" := JStr("application/json"),
      "accept" := JStr("application/json")];
    if IsOAuthToken(token) then base else base["organizationId" := org]
  }

  function FieldList(names: seq<string>): (r: seq<Json>)
    ensures |r| == |names|
  {
    seq(|names|, i requires 0 <= i < |names| => JStr(names[i]))
  }

  /** The passages request body; an unset (or empty) context and field list
      are sent as `{}` and `[]`. */
  function PassagePayload(ctx: SearchContext, count: int): (r: map<string, Json>)
    ensures r.Keys == {"query", "filter", "maxPassages", "localization", "context", "additionalFields"}
    ensures r["query"] == JStr(ctx.q) && r["maxPassages"] == JInt(count) && r["filter"] == FromOption(ctx.filter)
    ensures r["localization"] == JObj(map["locale" := JStr(ctx.locale), "timezone" := JStr(ctx.timezone)])
    ensures r["context"] == JObj(if ctx.context.Some? then ctx.context.value else map[])
    ensures r["additionalFields"] == JArr(if ctx.additionalFields.Some? then FieldList(ctx.additionalFields.value) else [])
  {
    map[
      "query" := JStr(ctx.q),
      "filter" := FromOption(ctx.filter),
      "maxPassages" := JInt(count),
      "localization" := JObj(map["locale" := JStr(ctx.locale), "timezone" := JStr(ctx.timezone)]),
      "context" := JObj(if ctx.context.Some? && ctx.context.value != map[] then ctx.context.value else map[]),
      "additionalFields" := JArr(
        if ctx.additionalFields.Some? && ctx.additionalFields.value != [] then FieldList(ctx.additionalFields.value)
        else [])]
  }

  /** A context built from the query alone sends no filter, the default
      locale and time zone, an empty context and no extra fields. */
  lemma DefaultPassagePayload(q: string, cfg: Config, count: int)
    ensures PassagePayload(NewSearchContext(q, cfg), count) == map[
      "query" := JStr(q),
      "filter" := JNull,
      "maxPassages" := JInt(count),
      "localization" := JObj(map["locale" := JStr("en-US"), "timezone" := JStr("America/New_York")]),
      "context" := JObj(map[]),
      "additionalFields" := JArr([])]
  {
  }

  /** What `retrieve_passages` returns for what the transport produced: the
      response's "items" (or `[]` when absent) when the body decodes to a
      dict, and `[]` on every failure. */
  function PassageItems(reply: HttpOutcome<string>, loads: string -> Result<Json, string>): (r: Json)
    ensures !reply.Response? ==> r == JArr([])
    ensures reply.Response? && loads(reply.value).Ok? && loads(reply.value).value.JObj? ==>
      r == Get(loads(reply.value).value.fields, "items", JArr([]))
    ensures !(reply.Response? && loads(reply.value).Ok? && loads(reply.value).value.JObj?) ==> r == JArr([])
  {
    match reply
    case Response(body) =>
      (match loads(body)
       case Ok(JObj(data)) => Get(data, "items", JArr([]))
       case _ => JArr([]))
    case _ => JArr([])
  }

  /** Builds and sends the passages request. With no API key configured,
      the credential test itself raises, before any request is made. */
  method RetrievePassages(query: string, count: int := 5, cfg: Config, reply: HttpOutcome<string>, loads: string -> Result<Json, string>)
    returns (sent: Option<Request>, out: Outcome<Json>)
    ensures cfg.apiKey.None? ==> sent == None && out == Raised(NoAttributeMessage(JNull, "startswith"))
    ensures cfg.apiKey.Some? ==> sent.Some? && out == Returned(PassageItems(reply, loads))
    ensures cfg.apiKey.Some? && !reply.Response? ==> out == Returned(JArr([]))
    ensures sent.Some? ==>
      var r := sent.value;
      var token := cfg.apiKey.value;
      var org := FromOption(cfg.organizationId);
      && cfg.apiKey.Some?
      && r.verb == HttpPost && r.endpoint == PassagesEndpoint
      && r.headers == PassageHeaders(token, org)
      && r.params == (if IsOAuthToken(token) then map["organizationId" := org] else map[])
      && "Authorization" in r.headers && r.headers["Authorization"] == JStr("Bearer " + token)
      && ("organizationId" in r.params <==> IsOAuthToken(token))
      && ("organizationId" in r.headers <==> !IsOAuthToken(token))
      && ("organizationId" in r.params ==> r.params["organizationId"] == org)
      && ("organizationId" in r.headers ==> r.headers["organizationId"] == org)
      && r.body.Some?
      && r.body.value.Keys == {"query", "filter", "maxPassages", "localization", "context", "additionalFields"}
      && r.body.value["query"] == JStr(query)
      && r.body.value["maxPassages"] == JInt(count)
      && r.body.value["filter"] == JNull
      && r.body.value["localization"] == JObj(map["locale" := JStr(DefaultLocale), "timezone" := JStr(DefaultTimezone)])
      && r.body.value["context"] == JObj(map[])
      && r.body.value["additionalFields"] == JArr([])
  {
    var ctx := NewSearchContext(query, cfg);
    if ctx.bearerToken.None? {
      return None, Raised(NoAttributeMessage(JNull, "startswith"));
    }
    var token := ctx.bearerToken.value;
    var isOAuth := StartsWith(token, "x") && !StartsWith(token, "xx");
    var headers := map[
      "Authorization" := JStr("Bearer " + token),
      "Content-Type" := JStr("application/json"),
      "accept" := JStr("application/json")];
    if !isOAuth {
      headers := headers["organizationId" := FromOption(ctx.organizationId)];
    }
    var params: map<string, Json> := map[];
    if isOAuth {
      params := params["organizationId" := FromOption(ctx.organizationId)];
    }
    var payload := PassagePayload(ctx, count);
    sent := Some(Request(HttpPost, PassagesEndpoint, headers, params, Some(payload)));
    out := Returned(PassageItems(reply, loads));
  }

  // ---------------------------------------------------------------------
  // generate_answer

  function GenerationError(message: string): string {
    "Error generating answer: " + message
  }

  /** The answer request: a POST with no query parameters, the five
      headers, and a body holding the query, an empty context and the
      requested content formats. An unset API key is sent as the text
      `None`, as the f-string renders it. */
  function AnswerRequest(query: string, cfg: Config): (r: Request)
    ensures r.verb == HttpPost && r.endpoint == AnswerEndpoint && r.params == map[]
    ensures r.headers.Keys == {"Authorization", "Content-Type", "Accept", "Accept-Language", "User-Agent"}
    ensures cfg.apiKey.Some? ==> r.headers["Authorization"] == JStr("Bearer " + cfg.apiKey.value)
    ensures cfg.apiKey.None? ==> r.headers["Authorization"] == JStr("Bearer None")
    ensures r.body.Some? && r.body.value.Keys == {"q", "context", "pipelineRuleParameters"}
    ensures r.body.value["q"] == JStr(query) && r.body.value["context"] == JStr("")
  {
    assert "Bearer " + "None" == "Bearer None";
    var headers := map[
      "Authorization" := JStr("Bearer " + OptionText(cfg.apiKey)),
      "Content-Type" := JStr("application/json"),
      "Accept" := JStr("application/json, text/event-stream"),
      "Accept-Language" := JStr("en-US"),
      "User-Agent" := JStr(UserAgent)];
    var format := JObj(map["contentFormat" := JArr([JStr("text/markdown"), JStr("text/plain")])]);
    var rules := JObj(map["mlGenerativeQuestionAnswering" := JObj(map["responseFormat" := format])]);
    var payload := map["q" := JStr(query), "context" := JStr(""), "pipelineRuleParameters" := rules];
    Request(HttpPost, AnswerEndpoint, headers, map[], Some(payload))
  }

  /** The answer text for what the transport produced. A rejected status
      gives "Error: HTTP <code>: <text>"; an exception while connecting, a
      stream that breaks before its end-of-stream event, or an exception
      while rendering gives "Error generating answer: <message>"; partial
      text is then discarded. Otherwise the rendered fold. */
  function AnswerText(reply: HttpOutcome<LineStream>, loads: string -> Result<Json, string>, repr: Json -> string): string {
    match reply
    case StatusError(code, text) => "Error: " + HttpErrorText(code, text)
    case RequestError(m) => GenerationError(m)
    case Response(stream) =>
      var a := Fold(stream.lines, loads);
      if !a.stopped && stream.cut.Some? then GenerationError(stream.cut.value)
      else match Render(a, repr)
        case Returned(text) => text
        case Raised(m) => GenerationError(m)
  }

  /** How each failure of the request surfaces in the answer: a rejected
      status as "Error: HTTP <code>: <text>", a transport exception and a
      stream that breaks before its end-of-stream event as "Error
      generating answer: <message>". */
  lemma AnswerErrors(reply: HttpOutcome<LineStream>, loads: string -> Result<Json, string>, repr: Json -> string)
    ensures reply.StatusError? ==> AnswerText(reply, loads, repr) == "Error: " + HttpErrorText(reply.code, reply.text)
    ensures reply.RequestError? ==> AnswerText(reply, loads, repr) == GenerationError(reply.message)
    ensures reply.Response? && !Fold(reply.value.lines, loads).stopped && reply.value.cut.Some? ==>
      AnswerText(reply, loads, repr) == GenerationError(reply.value.cut.value)
  {
  }

  /** The `for` loop that builds the Sources section. */
  method FormatSources(citations: Json, repr: Json -> string) returns (out: Outcome<string>)
    ensures out == SourcesSection(citations, repr)
  {
    match citations
    case JArr(items) =>
      var text := SourcesHeader;
      ghost var lines := "";
      var i := 0;
      while i < |items|
        invariant 0 <= i <= |items|
        invariant text == SourcesHeader + lines
        invariant SourceLines(items[..i], repr) == Returned(lines)
      {
        match items[i] {
          case JObj(c) =>
            var line := SourceLine(i, c, repr);
            SourceLinesExtend(items, i, lines, repr);
            AppendAssoc(SourcesHeader, lines, line);
            text := text + line;
            lines := lines + line;
          case v =>
            SourceLinesFailFast(items, i, repr);
            return Raised(NoAttributeMessage(v, "get"));
        }
        i := i + 1;
      }
      assert items[..i] == items;
      out := Returned(text);
    case JStr(_) =>
      out := Raised(NoAttributeMessage(JStr(""), "get"));
    case JObj(_) =>
      out := Raised(NoAttributeMessage(JStr(""), "get"));
    case _ =>
      out := Raised(NotIterableMessage(citations));
  }

  /** The `async for` loop over the stream's lines: message deltas are
      collected, a citations event replaces the list, and an end-of-stream
      event breaks out of the loop. */
  method ReadLines(lines: seq<string>, loads: string -> Result<Json, string>)
    returns (fragments: seq<Json>, citations: Json, stopped: bool)
    ensures Fold(lines, loads) == Assembly(fragments, citations, stopped)
  {
    ghost var ev := Events(lines, loads);
    fragments, citations, stopped := [], JArr([]), false;
    var i := 0;
    while i < |lines|
      invariant 0 <= i <= |lines|
      invariant Run(ev[..i]) == Assembly(fragments, citations, false)
    {
      var event := Classify(lines[i], loads);
      assert event == ev[i];
      ReadEventStep(ev, i, fragments, citations);
      match event {
        case Message(delta) =>
          if Truthy(delta) {
            fragments := fragments + [delta];
          }
        case Citations(list) =>
          citations := list;
        case EndOfStream =>
          assert ev[..i + 1] + ev[i + 1..] == ev;
          StoppedRunIgnoresRest(ev[..i + 1], ev[i + 1..]);
          stopped := true;
          return;
        case _ =>
      }
      i := i + 1;
    }
    assert ev[..i] == ev;
  }

  /** Reads the answer stream and renders the answer. An empty query is
      refused before any request. */
  method GenerateAnswer(query: string, cfg: Config, reply: HttpOutcome<LineStream>,
                        loads: string -> Result<Json, string>, repr: Json -> string)
    returns (sent: Option<Request>, answer: string)
    ensures query == "" ==> sent == None && answer == EmptyQueryError
    ensures query != "" ==> sent == Some(AnswerRequest(query, cfg)) && answer == AnswerText(reply, loads, repr)
  {
    if query == "" {
      return None, EmptyQueryError;
    }
    sent := Some(AnswerRequest(query, cfg));
    match reply
    case StatusError(code, text) =>
      answer := "Error: " + HttpErrorText(code, text);
    case RequestError(m) =>
      answer := GenerationError(m);
    case Response(stream) =>
      var fragments, citations, stopped := ReadLines(stream.lines, loads);
      if !stopped && stream.cut.Some? {
        return sent, GenerationError(stream.cut.value);
      }
      var joined := Join(fragments);
      match joined
      case Raised(m) =>
        answer := GenerationError(m);
      case Returned(text) =>
        if Truthy(citations) {
          var section := FormatSources(citations, repr);
          match section
          case Raised(m) =>
            answer := GenerationError(m);
          case Returned(s) =>
            answer := text + s;
        } else {
          answer := text;
        }
  }

  // ---------------------------------------------------------------------
  // Properties of the answer

  /** Lines after the end-of-stream event, and a failure of the stream
      after them, do not change the answer. */
  lemma AnswerIgnoresRestAfterEnd(lines: seq<string>, more: seq<string>, cut: Option<string>,
                                  loads: string -> Result<Json, string>, repr: Json -> string)
    requires Fold(lines, loads).stopped
    ensures AnswerText(Response(LineStream(lines + more, cut)), loads, repr)
         == AnswerText(Response(LineStream(lines, None)), loads, repr)
  {
    StoppedFoldIgnoresRest(lines, more, loads);
  }

  /** When the stream is read to its end marker or to a clean end, its
      deltas are strings and its last citation list holds dicts, the answer
      is the truthy deltas before the first end-of-stream event, in order,
      followed, when that list is non-empty, by the Sources header and one
      numbered line per citation of the last citations event. */
  lemma AnswerFromReference(stream: LineStream, loads: string -> Result<Json, string>, repr: Json -> string,
                            deltas: seq<Json>, items: seq<Json>)
    requires var ev := Events(stream.lines, loads); var k := FirstEnd(ev);
      && (k < |ev| || stream.cut.None?)
      && Deltas(ev[..k]) == deltas
      && LastCitations(ev[..k]) == JArr(items)
    requires AllStrings(deltas) && AllDicts(items)
    ensures AnswerText(Response(stream), loads, repr)
         == Concat(Texts(deltas)) + (if items == [] then "" else SourcesHeader + Concat(NumberedLines(items, repr)))
  {
    var ev := Events(stream.lines, loads);
    var k := FirstEnd(ev);
    FoldIsReference(stream.lines, loads);
    RenderShape(deltas, items, k < |ev|, repr);
  }

  /** A rejected status gives exactly "Error: HTTP <code>: <text>". */
  lemma BadRequestAnswer(loads: string -> Result<Json, string>, repr: Json -> string)
    ensures AnswerText(StatusError(400, "Bad Request"), loads, repr) == "Error: HTTP 400: Bad Request"
  {
    BadRequestText();
    assert "Error: " + "HTTP 400: Bad Request" == "Error: HTTP 400: Bad Request";
  }

  lemma BadRequestText()
    ensures HttpErrorText(400, "Bad Request") == "HTTP 400: Bad Request"
  {
    StatusCode400();
    assert "HTTP " + "400" == "HTTP 400";
    assert "HTTP 400" + ": " == "HTTP 400: ";
    assert "HTTP 400: " + "Bad Request" == "HTTP 400: Bad Request";
  }

  lemma StatusCode400()
    ensures NatToString(400) == "400"
  {
    assert NatToString(4) == "4";
    assert NatToString(40) == "40";
  }

  lemma MessageLine(j: string, inner: string, delta: Json, loads: string -> Result<Json, string>)
    requires CleanPayload(j) && loads(j) == Ok(JObj(map["payloadType" := JStr(MessageType), "payload" := JStr(inner)]))
    requires loads(inner) == Ok(JObj(map["textDelta" := delta]))
    ensures Classify(DataPrefix + j, loads) == Message(delta)
  {
    var data := map["payloadType" := JStr(MessageType), "payload" := JStr(inner)];
    ClassifyDataLine(j, data, loads);
    assert InnerPayload(data, loads) == Some(map["textDelta" := delta]);
    DispatchMessage(data, map["textDelta" := delta], loads);
  }

  lemma CitationsLine(j: string, inner: string, list: Json, loads: string -> Result<Json, string>)
    requires CleanPayload(j) && loads(j) == Ok(JObj(map["payloadType" := JStr(CitationsType), "payload" := JStr(inner)]))
    requires loads(inner) == Ok(JObj(map["citations" := list]))
    ensures Classify(DataPrefix + j, loads) == Citations(list)
  {
    var data := map["payloadType" := JStr(CitationsType), "payload" := JStr(inner)];
    ClassifyDataLine(j, data, loads);
    assert InnerPayload(data, loads) == Some(map["citations" := list]);
    DispatchCitations(data, map["citations" := list], loads);
  }

  lemma EndLine(j: string, loads: string -> Result<Json, string>)
    requires CleanPayload(j) && loads(j) == Ok(JObj(map["payloadType" := JStr(EndOfStreamType)]))
    ensures Classify(DataPrefix + j, loads) == EndOfStream
  {
    ClassifyDataLine(j, map["payloadType" := JStr(EndOfStreamType)], loads);
    DispatchEnd(map["payloadType" := JStr(EndOfStreamType)], loads);
  }

  lemma EventsOfFour(lines: seq<string>, loads: string -> Result<Json, string>)
    requires |lines| == 4
    ensures Events(lines, loads)
         == [Classify(lines[0], loads), Classify(lines[1], loads), Classify(lines[2], loads), Classify(lines[3], loads)]
  {
  }

  /** The example stream's four lines, each `data:` followed by its JSON
      text: two message deltas, a citations event with one citation, and
      the end marker. */
  predicate ExampleStream(j1: string, j2: string, j3: string, j4: string, i1: string, i2: string, i3: string,
                          loads: string -> Result<Json, string>)
  {
    && CleanPayload(j1) && CleanPayload(j2) && CleanPayload(j3) && CleanPayload(j4)
    && loads(j1) == Ok(JObj(map["payloadType" := JStr(MessageType), "payload" := JStr(i1)]))
    && loads(i1) == Ok(JObj(map["textDelta" := JStr("This is ")]))
    && loads(j2) == Ok(JObj(map["payloadType" := JStr(MessageType), "payload" := JStr(i2)]))
    && loads(i2) == Ok(JObj(map["textDelta" := JStr("a test answer")]))
    && loads(j3) == Ok(JObj(map["payloadType" := JStr(CitationsType), "payload" := JStr(i3)]))
    && loads(i3) == Ok(JObj(map["citations" := JArr([ExampleCitation])]))
    && loads(j4) == Ok(JObj(map["payloadType" := JStr(EndOfStreamType)]))
  }

  const ExampleCitation := JObj(map["title" := JStr("Citation Title"), "clickUri" := JStr("https://example.com/citation")])

  /** The example stream's lines stand for two deltas, one citations list
      and the end marker. */
  lemma ExampleStreamEvents(j1: string, j2: string, j3: string, j4: string, i1: string, i2: string, i3: string,
                            loads: string -> Result<Json, string>)
    requires ExampleStream(j1, j2, j3, j4, i1, i2, i3, loads)
    ensures Events([DataPrefix + j1, DataPrefix + j2, DataPrefix + j3, DataPrefix + j4], loads)
         == [Message(JStr("This is ")), Message(JStr("a test answer")), Citations(JArr([ExampleCitation])), EndOfStream]
  {
    var lines := [DataPrefix + j1, DataPrefix + j2, DataPrefix + j3, DataPrefix + j4];
    MessageLine(j1, i1, JStr("This is "), loads);
    MessageLine(j2, i2, JStr("a test answer"), loads);
    CitationsLine(j3, i3, JArr([ExampleCitation]), loads);
    EndLine(j4, loads);
    EventsOfFour(lines, loads);
  }

  /** The reference reading of the example events: the end marker is the
      fourth event, the two deltas and the one citations list come before it. */
  lemma ExampleEventsRead(ev: seq<LineEvent>)
    requires ev == [Message(JStr("This is ")), Message(JStr("a test answer")), Citations(JArr([ExampleCitation])), EndOfStream]
    ensures FirstEnd(ev) == 3
    ensures Deltas(ev[..3]) == [JStr("This is "), JStr("a test answer")]
    ensures LastCitations(ev[..3]) == JArr([ExampleCitation])
  {
    var read := [Message(JStr("This is ")), Message(JStr("a test answer")), Citations(JArr([ExampleCitation]))];
    assert ev == read + [EndOfStream];
    assert ev[..3] == read;
    assert read[1..][1..][1..] == [];
    assert ev[1..][1..][1..] == [EndOfStream];
    assert FirstEnd(ev[1..][1..][1..]) == 0;
    assert Deltas(read[1..][1..]) == [];
    assert Deltas(read[1..]) == [JStr("a test answer")];
  }

  lemma ExampleSourceLineHead()
    ensures "1" + ". [" + "Citation Title" + "](" == "1. [Citation Title]("
  {
    assert "1" + ". [" == "1. [";
    assert "1. [" + "Citation Title" == "1. [Citation Title";
  }

  lemma ExampleSourceLineText()
    ensures "1" + ". [" + "Citation Title" + "](" + "https://example.com/citation" + ")\n"
         == "1. [Citation Title](https://example.com/citation)\n"
  {
    ExampleSourceLineHead();
    assert "1. [Citation Title](" + "https://example.com/citation" == "1. [Citation Title](https://example.com/citation";
  }

  /** The example citation's numbered line. */
  lemma ExampleSourceLine(repr: Json -> string)
    ensures SourceLine(0, ExampleCitation.fields, repr) == "1. [Citation Title](https://example.com/citation)\n"
  {
    assert NatToString(1) == "1";
    assert Get(ExampleCitation.fields, "title", JStr("Untitled")) == JStr("Citation Title");
    assert Get(ExampleCitation.fields, "clickUri", JStr("#")) == JStr("https://example.com/citation");
    ExampleSourceLineText();
  }

  /** The example's two deltas joined. */
  lemma ExampleText()
    ensures Concat(Texts([JStr("This is "), JStr("a test answer")])) == "This is a test answer"
  {
    var texts := Texts([JStr("This is "), JStr("a test answer")]);
    assert texts == ["This is ", "a test answer"];
    assert Concat(texts[1..]) == "a test answer";
  }

  /** The example's one citation numbered. */
  lemma ExampleNumbered(repr: Json -> string)
    ensures Concat(NumberedLines([ExampleCitation], repr)) == "1. [Citation Title](https://example.com/citation)\n"
  {
    var numbered := NumberedLines([ExampleCitation], repr);
    ExampleSourceLine(repr);
    assert numbered == ["1. [Citation Title](https://example.com/citation)\n"];
  }

  /** The example's deltas and citation rendered. */
  lemma ExampleRendering(repr: Json -> string)
    ensures Concat(Texts([JStr("This is "), JStr("a test answer")]))
          + SourcesHeader + Concat(NumberedLines([ExampleCitation], repr))
         == "This is a test answer" + SourcesHeader + "1. [Citation Title](https://example.com/citation)\n"
  {
    ExampleText();
    ExampleNumbered(repr);
  }

  /** The fold over the example events. */
  lemma ExampleRun(ev: seq<LineEvent>)
    requires ev == [Message(JStr("This is ")), Message(JStr("a test answer")), Citations(JArr([ExampleCitation])), EndOfStream]
    ensures Run(ev) == Assembly([JStr("This is "), JStr("a test answer")], JArr([ExampleCitation]), true)
  {
    ExampleEventsRead(ev);
    RunIsReference(ev);
  }

  /** The example assembly rendered. */
  lemma ExampleRender(repr: Json -> string)
    ensures Render(Assembly([JStr("This is "), JStr("a test answer")], JArr([ExampleCitation]), true), repr)
         == Returned("This is a test answer" + SourcesHeader + "1. [Citation Title](https://example.com/citation)\n")
  {
    var deltas := [JStr("This is "), JStr("a test answer")];
    RenderShape(deltas, [ExampleCitation], true, repr);
    AppendAssoc(Concat(Texts(deltas)), SourcesHeader, Concat(NumberedLines([ExampleCitation], repr)));
    ExampleRendering(repr);
  }

  /** A stream standing for two deltas, one citations list with one
      citation and the end marker is answered with the deltas joined and
      one numbered source line. */
  lemma ExampleEventsAnswer(lines: seq<string>, loads: string -> Result<Json, string>, repr: Json -> string)
    requires Events(lines, loads)
          == [Message(JStr("This is ")), Message(JStr("a test answer")), Citations(JArr([ExampleCitation])), EndOfStream]
    ensures AnswerText(Response(LineStream(lines, None)), loads, repr)
         == "This is a test answer" + SourcesHeader + "1. [Citation Title](https://example.com/citation)\n"
  {
    ExampleRun(Events(lines, loads));
    ExampleRender(repr);
  }

  /** The example stream is answered with the two deltas joined and one
      numbered source line. */
  lemma FourLineStreamAnswer(j1: string, j2: string, j3: string, j4: string, i1: string, i2: string, i3: string,
                             loads: string -> Result<Json, string>, repr: Json -> string)
    requires ExampleStream(j1, j2, j3, j4, i1, i2, i3, loads)
    ensures AnswerText(Response(LineStream([DataPrefix + j1, DataPrefix + j2, DataPrefix + j3, DataPrefix + j4], None)), loads, repr)
         == "This is a test answer" + SourcesHeader + "1. [Citation Title](https://example.com/citation)\n"
  {
    ExampleStreamEvents(j1, j2, j3, j4, i1, i2, i3, loads);
    ExampleEventsAnswer([DataPrefix + j1, DataPrefix + j2, DataPrefix + j3, DataPrefix + j4], loads, repr);
  }
}
