/** The three MCP tools: each maps what the client layer returns to the
    string the tool hands back to the assistant. `json.dumps` is the
    parameter `dumps`. */
module Server {
  import opened PyValues
  import opened PyStrings
  import opened CoveoApi

  const NoResults := "No results found for this query."
  const NoPassages := "No passages found for this query."
  const UnknownError := "Unknown error occurred"

  /** The fields a search asks for. */
  function SearchFields(): seq<Json> {
    [JStr("title"), JStr("uri"), JStr("excerpt"), JStr("printableUri"), JStr("clickUri")]
  }

  /** The query parameters `search_coveo` builds before the client adds the
      organization id. */
  function SearchPayload(query: string, count: int): (p: map<string, Json>)
    ensures p.Keys == {"q", "numberOfResults", "fieldsToExclude", "fieldsToInclude", "excerptLength", "debugRankingInformation"}
    ensures p["q"] == JStr(query) && p["numberOfResults"] == JInt(count)
  {
    map[
      "q" := JStr(query),
      "numberOfResults" := JInt(count),
      "fieldsToExclude" := JArr([JStr("rankingInfo")]),
      "fieldsToInclude" := JArr(SearchFields()),
      "excerptLength" := JInt(500),
      "debugRankingInformation" := JBool(false)]
  }

  /** The text of the TypeError raised by `key in v` for a scalar `v`. */
  function NotContainerMessage(v: Json): string {
    "argument of type '" + TypeName(v) + "' is not iterable"
  }

  /** `key in v`: a key test on a dict, an element test on a list, a
      substring test on a str; any other value raises. */
  function Contains(v: Json, key: string): (r: Outcome<bool>)
    ensures r.Returned? <==> v.JObj? || v.JArr? || v.JStr?
    ensures v.JObj? ==> r == Returned(key in v.fields)
  {
    match v
    case JObj(fields) => Returned(key in fields)
    case JArr(items) => Returned(JStr(key) in items)
    case JStr(s) => Returned(Occurs(key, s))
    case _ => Raised(NotContainerMessage(v))
  }

  /** `v[key]` with a str key. A dict lacking the key raises KeyError, whose
      text is the key's repr; a list or a str rejects a str index. */
  function Subscript(v: Json, key: string): (r: Outcome<Json>)
    ensures r.Returned? <==> v.JObj? && key in v.fields
    ensures r.Returned? ==> r.value == v.fields[key]
  {
    match v
    case JObj(fields) => if key in fields then Returned(fields[key]) else Raised("'" + key + "'")
    case JArr(_) => Raised("list indices must be integers or slices, not str")
    case JStr(_) => Raised("string indices must be integers, not 'str'")
    case _ => Raised("'" + TypeName(v) + "' object is not subscriptable")
  }

  /** `f"Error: {data.get('error', 'Unknown error occurred')}"`; `.get` on
      anything but a dict raises. */
  function ErrorMessage(data: Json, repr: Json -> string): (r: Outcome<string>)
    ensures r.Returned? <==> data.JObj?
  {
    if data.JObj? then Returned("Error: " + Str(Get(data.fields, "error", JStr(UnknownError)), repr))
    else Raised(NoAttributeMessage(data, "get"))
  }

  /** What `search_coveo` makes of the value the client returned: the
      results as JSON text, the no-results message, or an error text. The
      client only promises a dict; any other decoded body goes through the
      same tests, which may raise. */
  function SearchMessage(data: Json, dumps: Json -> string, repr: Json -> string): (r: Outcome<string>)
    ensures data.JObj? ==> r.Returned?
    ensures data.JObj? && "error" in data.fields ==> r == Returned("Error: " + Str(data.fields["error"], repr))
    ensures data == JObj(map[]) ==> r == Returned("Error: " + UnknownError)
    ensures data.JObj? && data.fields != map[] && "error" !in data.fields ==>
      r == Returned(if "results" in data.fields && Truthy(data.fields["results"]) then dumps(data.fields["results"]) else NoResults)
    ensures data.JArr? ==> (r.Raised? <==> data.items == [] || JStr("error") in data.items || JStr("results") in data.items)
    ensures data.JStr? ==> (r.Raised? <==> data.s == [] || Occurs("error", data.s) || Occurs("results", data.s))
    ensures !(data.JObj? || data.JArr? || data.JStr?) ==> r.Raised?
    ensures !data.JObj? && r.Returned? ==> r.value == NoResults
  {
    if !Truthy(data) then ErrorMessage(data, repr)
    else match Contains(data, "error")
      case Raised(m) => Raised(m)
      case Returned(hasError) =>
        if hasError then ErrorMessage(data, repr)
        else match Contains(data, "results")
          case Raised(m) => Raised(m)
          case Returned(hasResults) =>
            if !hasResults then Returned(NoResults)
            else match Subscript(data, "results")
              case Raised(m) => Raised(m)
              case Returned(results) =>
                if Truthy(results) then Returned(dumps(results)) else Returned(NoResults)
  }

  /** `search_coveo`: the client adds the organization id to the payload
      it is given and sends it; the tool maps what comes back. */
  method SearchCoveo(query: string, count: int := 5, cfg: Config, reply: HttpOutcome<string>,
                     loads: string -> Result<Json, string>, dumps: Json -> string, repr: Json -> string)
    returns (sent: Request, out: Outcome<string>)
    ensures sent.verb == HttpGet && sent.endpoint == SearchEndpoint && sent.body.None?
    ensures sent.params == SearchPayload(query, count)["organizationId" := FromOption(cfg.organizationId)]
    ensures out == SearchMessage(SearchResponse(reply, loads), dumps, repr)
  {
    var payload := new PyDict(SearchPayload(query, count));
    var data;
    sent, data := MakeCoveoRequest(payload, cfg, reply, loads);
    out := SearchMessage(data, dumps, repr);
  }

  /** A search the transport or the decoder fails surfaces as
      "Error: HTTP <code>: <text>" or "Error: Request failed: <message>",
      and never raises. */
  lemma SearchFailureMessage(reply: HttpOutcome<string>, loads: string -> Result<Json, string>,
                             dumps: Json -> string, repr: Json -> string)
    ensures reply.StatusError? ==>
      SearchMessage(SearchResponse(reply, loads), dumps, repr) == Returned("Error: " + HttpErrorText(reply.code, reply.text))
    ensures reply.RequestError? ==>
      SearchMessage(SearchResponse(reply, loads), dumps, repr) == Returned("Error: Request failed: " + reply.message)
    ensures reply.Response? && loads(reply.value).Err? ==>
      SearchMessage(SearchResponse(reply, loads), dumps, repr) == Returned("Error: Request failed: " + loads(reply.value).error)
  {
    var data := SearchResponse(reply, loads);
    if !(reply.Response? && loads(reply.value).Ok?) {
      assert "error" in data.fields;
      var m := if reply.RequestError? then reply.message else if reply.Response? then loads(reply.value).error else "";
      AppendAssoc("Error: ", "Request failed: ", m);
      assert "Error: " + "Request failed: " == "Error: Request failed: ";
    }
  }

  /** A response body that decodes to a dict with non-empty results and no
      "error" key is answered with those results as JSON text. */
  lemma SearchResultsMessage(body: string, d: map<string, Json>, loads: string -> Result<Json, string>,
                             dumps: Json -> string, repr: Json -> string)
    requires loads(body) == Ok(JObj(d))
    requires "error" !in d && "results" in d && Truthy(d["results"])
    ensures SearchMessage(SearchResponse(Response(body), loads), dumps, repr) == Returned(dumps(d["results"]))
  {
    assert d != map[];
  }

  /** `passage_retrieval` after the empty-query guard: an exception from
      the client becomes "Error retrieving passages: <message>", an empty
      result the no-passages message, anything else its JSON text. */
  function PassageMessage(lower: Outcome<Json>, dumps: Json -> string): (r: string)
    ensures lower.Raised? ==> r == "Error retrieving passages: " + lower.message
    ensures lower.Returned? ==> r == (if Truthy(lower.value) then dumps(lower.value) else NoPassages)
  {
    match lower
    case Raised(m) => "Error retrieving passages: " + m
    case Returned(passages) => if !Truthy(passages) then NoPassages else dumps(passages)
  }

  /** `passage_retrieval`: the empty query is refused before the client is
      called; the count is passed through unchanged. */
  method PassageRetrieval(query: string, count: int := 5, cfg: Config, reply: HttpOutcome<string>,
                          loads: string -> Result<Json, string>, dumps: Json -> string)
    returns (sent: Option<Request>, out: string)
    ensures query == "" ==> sent == None && out == EmptyQueryError
    ensures query != "" && cfg.apiKey.None? ==>
      sent == None && out == "Error retrieving passages: " + NoAttributeMessage(JNull, "startswith")
    ensures query != "" && cfg.apiKey.Some? ==>
      && sent.Some? && sent.value.body.Some?
      && "query" in sent.value.body.value && sent.value.body.value["query"] == JStr(query)
      && "maxPassages" in sent.value.body.value && sent.value.body.value["maxPassages"] == JInt(count)
      && out == PassageMessage(Returned(PassageItems(reply, loads)), dumps)
    ensures query != "" && cfg.apiKey.Some? && !reply.Response? ==> out == NoPassages
  {
    if query == "" {
      return None, EmptyQueryError;
    }
    var lower;
    sent, lower := RetrievePassages(query, count, cfg, reply, loads);
    out := PassageMessage(lower, dumps);
  }

  /** A call with the query alone asks the client for the default five
      passages. */
  method PassageRetrievalDefaultCount(query: string, cfg: Config, reply: HttpOutcome<string>,
                                      loads: string -> Result<Json, string>, dumps: Json -> string)
    returns (sent: Option<Request>, out: string)
    ensures query != "" && cfg.apiKey.Some? ==>
      && sent.Some? && sent.value.body.Some? && "maxPassages" in sent.value.body.value
      && sent.value.body.value["maxPassages"] == JInt(5)
  {
    sent, out := PassageRetrieval(query, cfg := cfg, reply := reply, loads := loads, dumps := dumps);
  }

  /** A configured client whose response decodes to a dict with non-empty
      "items" returns those items as JSON text. */
  lemma PassagesReturned(body: string, d: map<string, Json>, loads: string -> Result<Json, string>, dumps: Json -> string)
    requires loads(body) == Ok(JObj(d)) && "items" in d && Truthy(d["items"])
    ensures PassageMessage(Returned(PassageItems(Response(body), loads)), dumps) == dumps(d["items"])
  {
  }

  /** `answer_question`'s handler: what the client returned, or
      "Error generating answer: <message>" for an exception escaping it. */
  function AnswerMessage(lower: Outcome<string>): (r: string)
    ensures lower.Returned? ==> r == lower.value
    ensures lower.Raised? ==> r == GenerationError(lower.message)
  {
    match lower
    case Returned(text) => text
    case Raised(m) => GenerationError(m)
  }

  /** `answer_question`: the empty query is refused before the client is
      called; otherwise the tool returns the client's answer text, which
      already carries every error the client catches. */
  method AnswerQuestion(query: string, cfg: Config, reply: HttpOutcome<LineStream>,
                        loads: string -> Result<Json, string>, repr: Json -> string)
    returns (sent: Option<Request>, out: string)
    ensures query == "" ==> sent == None && out == EmptyQueryError
    ensures query != "" ==> sent == Some(AnswerRequest(query, cfg)) && out == AnswerText(reply, loads, repr)
  {
    if query == "" {
      return None, EmptyQueryError;
    }
    var answer;
    sent, answer := GenerateAnswer(query, cfg, reply, loads, repr);
    out := AnswerMessage(Returned(answer));
  }
}
