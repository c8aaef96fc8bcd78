# coveo-mcp-server in Dafny

This project models the request and response logic of the Coveo MCP server.
The server has three tools:

- `search_coveo` (Search API)
- `passage_retrieval` (Passage Retrieval API)
- `answer_question` (the streaming Answer API)

Each tool builds a request, hands it to an HTTP client and turns what comes back into the one string the tool returns.

The network is a parameter. Each operation receives what the transport produced for its request (`HttpOutcome`):

- a response body;
- a status that `raise_for_status` rejects;
- an exception raised while sending or receiving.

Each operation returns the `Request` it sends, so that the headers, query parameters and body can be stated.

The other Python pieces are modelled as follows:

- JSON decoding (`json.loads`), JSON encoding (`json.dumps`) and Python's `str()` of floats, lists and dicts are parameters (`loads`, `dumps`, `repr`).
- Python values are the `Json` datatype.
- An exception escaping a call is `Outcome.Raised(str(e))`.

Modules:

- `PyValues`: the value domain, with truthiness, `dict.get` and the CPython error texts the code can surface.
- `PyStrings`: `str.startswith`, `str.strip()`, `str.replace(old, '')` and substring tests.
- `AnswerAssembly`: the meaning of the answer stream.
  - Each line is classified into an event.
  - The events fold into text fragments, a citation value and a "stopped" flag.
  - The fold is proved equal to a reference reading:
    - the truthy message deltas before the first end-of-stream event, in order;
    - the citations of the last citations event before it.
  - The fold is rendered as the answer text with its "Sources" section.
- `CoveoApi`: the client layer.
  - `make_coveo_request` writes the organization id into the caller's dict, a `PyDict` object updated in place.
  - `retrieve_passages` classifies the credential, places the organization id and builds the payload.
  - `generate_answer` reads the stream with a loop proved equal to the function `Fold`, and builds the Sources section with a loop proved equal to the function `SourcesSection`.
- `Server`: the three tools, as mappings from the client layer's result to a string.

Behaviour of the code that the model keeps:

- `line.replace('data:', '')` removes every occurrence of `data:` in a line, not only the leading one.
- An unset API key makes `retrieve_passages` raise at `.startswith`, before its `try`. `passage_retrieval` then answers "Error retrieving passages: 'NoneType' object has no attribute 'startswith'".
- The repository's unit tests for the server expect dicts (`{"error": ...}`, `{"message": ...}`). The tools return strings. The model follows the code.
- `search_coveo` tests `in` on whatever the search body decodes to. A non-dict body goes through Python's `in`, subscript and `.get`, which may raise. That exception escapes the tool, because `search_coveo` has no `try`.

## Model

| member | source | states |
|---|---|---|
| `PyValues.NatToStringRoundTrip` | src/coveo_mcp_server/coveo_api.py:202 | the number printed in front of a source line reads back as that number |
| `PyStrings.StripBlank` | src/coveo_mcp_server/coveo_api.py:165 | `strip()` yields the empty string exactly when the line is all whitespace |
| `PyStrings.RemoveAllLeading` | src/coveo_mcp_server/coveo_api.py:169 | removing `data:` from `data:` + payload gives the payload back when the payload has no further `data:` |
| `AnswerAssembly.Classify` | src/coveo_mcp_server/coveo_api.py:165-166 | a line is skipped by the filter exactly when it is blank or does not start with `data:` |
| `AnswerAssembly.RunIsReference` | src/coveo_mcp_server/coveo_api.py:164-188 | the event fold equals the reference: truthy deltas before the first end event, the last citations before it, stopped iff an end event exists |
| `AnswerAssembly.FoldIsReference` | src/coveo_mcp_server/coveo_api.py:164-191 | the same, stated on the stream's lines |
| `AnswerAssembly.StoppedFoldIgnoresRest` | src/coveo_mcp_server/coveo_api.py:186-188 | once the end-of-stream event is read, later lines change nothing |
| `AnswerAssembly.SkippedLineChangesNothing` | src/coveo_mcp_server/coveo_api.py:165-191 | a filtered line, a line whose parsing raises, or an unrecognised payload type leaves the fold as it was |
| `PyStrings.RemoveAllAbsent` | src/coveo_mcp_server/coveo_api.py:169 | `replace('data:', '')` leaves a string without `data:` unchanged |
| `AnswerAssembly.DataLinePayload` | src/coveo_mcp_server/coveo_api.py:165-169 | `data:` followed by a clean payload passes the line test and hands exactly that payload to the decoder |
| `AnswerAssembly.ClassifyDataLine` | src/coveo_mcp_server/coveo_api.py:165-172 | a `data:` line with a clean payload is decoded from exactly that payload and dispatched on its dict |
| `AnswerAssembly.DispatchMessage` | src/coveo_mcp_server/coveo_api.py:175-179 | any message event whose nested payload decodes to a dict yields its `textDelta`, or `''` when the key is absent |
| `AnswerAssembly.DispatchCitations` | src/coveo_mcp_server/coveo_api.py:182-184 | any citations event whose nested payload decodes to a dict yields its `citations`, or `[]` when the key is absent |
| `AnswerAssembly.CitationsWithoutPayload` | src/coveo_mcp_server/coveo_api.py:183-184 | a citations event without a nested payload resets the citations read so far to `[]` |
| `AnswerAssembly.DispatchEnd` | src/coveo_mcp_server/coveo_api.py:187-188 | any end-of-stream event, whatever else it carries, yields the stop event |
| `AnswerAssembly.DispatchKinds` | src/coveo_mcp_server/coveo_api.py:172-188 | the dispatch in full: message and citations events iff their type matches and the nested payload decodes to a dict, malformed iff it does not, end of stream iff its type, unrecognised iff the type is none of the three |
| `AnswerAssembly.Step` | src/coveo_mcp_server/coveo_api.py:175-188 | one event adds its truthy delta to the fragments, a citations event replaces the list, an end event stops the reading, and nothing else changes |
| `AnswerAssembly.RunPrefixStep` | src/coveo_mcp_server/coveo_api.py:164-188 | `Run` reads one more event by applying `Step` as long as it has not stopped |
| `AnswerAssembly.Join` | src/coveo_mcp_server/coveo_api.py:194 | `''.join` succeeds exactly when every fragment is a str, and then yields their concatenation in order |
| `AnswerAssembly.NumberedLineAt` | src/coveo_mcp_server/coveo_api.py:199-202 | the line at position i is built from citation i's title and link and numbered i + 1 |
| `AnswerAssembly.SourceLinesNumbered` | src/coveo_mcp_server/coveo_api.py:197-202 | for dict citations, the Sources lines are one line per citation, in order, numbered from 1, with "Untitled" and "#" as defaults |
| `AnswerAssembly.SourceLinesFailFast` | src/coveo_mcp_server/coveo_api.py:199-201 | the first citation that is not a dict raises the AttributeError of `.get`, whatever follows it |
| `AnswerAssembly.SourcesSectionMeaning` | src/coveo_mcp_server/coveo_api.py:197-204 | the Sources section succeeds iff the citations are a list of dicts, and is then the header and the numbered lines; otherwise the first non-dict raises at `.get` |
| `AnswerAssembly.RenderShape` | src/coveo_mcp_server/coveo_api.py:194-206 | the answer is the joined fragments, followed by the header and the numbered lines when there is at least one citation |
| `CoveoApi.SearchResponse` | src/coveo_mcp_server/coveo_api.py:46-54 | a decoded body passes through unchanged; every failure becomes a dict whose only key is "error", holding "HTTP code: text" or "Request failed: message" |
| `CoveoApi.MakeCoveoRequest` | src/coveo_mcp_server/coveo_api.py:32-54 | the caller's dict gains `organizationId` and keeps every other entry; the GET carries those params; the result is `SearchResponse` |
| `CoveoApi.DefaultPassagePayload` | src/coveo_mcp_server/coveo_api.py:19-29 | a context built from the query alone sends filter None, en-US, America/New_York, `{}` and `[]` |
| `CoveoApi.OAuthTokenChars` | src/coveo_mcp_server/coveo_api.py:72 | a token is OAuth iff its first character is `x` and its second, if any, is not |
| `CoveoApi.PassageHeaders` | src/coveo_mcp_server/coveo_api.py:74-82 | exactly the bearer, content-type and accept headers, plus the organization id for an API key |
| `CoveoApi.PassagePayload` | src/coveo_mcp_server/coveo_api.py:89-99 | the six body keys; the query, filter, count and localization as given; an unset context and field list sent as `{}` and `[]` |
| `CoveoApi.PassageItems` | src/coveo_mcp_server/coveo_api.py:101-115 | the result is the body's "items" (default `[]`) when the body decodes to a dict, and `[]` on every failure |
| `CoveoApi.RetrievePassages` | src/coveo_mcp_server/coveo_api.py:56-115 | the count defaults to 5; no API key raises before any request; the params are exactly the organization id for an OAuth token (`x` but not `xx`) and empty otherwise; the headers are exactly `PassageHeaders`; the exact body keys and values |
| `CoveoApi.AnswerRequest` | src/coveo_mcp_server/coveo_api.py:136-154 | a POST without query parameters, with the five headers (an unset key sent as `Bearer None`) and a body of exactly the query, an empty context and the rule parameters |
| `CoveoApi.AnswerErrors` | src/coveo_mcp_server/coveo_api.py:156-211 | a rejected status gives "Error: HTTP code: text"; a transport exception, or a stream broken before its end event, gives "Error generating answer: ..." |
| `CoveoApi.FormatSources` | src/coveo_mcp_server/coveo_api.py:196-204 | the `+=` loop yields `SourcesSection`, including its errors |
| `CoveoApi.ReadLines` | src/coveo_mcp_server/coveo_api.py:164-191 | the line loop ends in the state of the event fold over the whole stream |
| `CoveoApi.GenerateAnswer` | src/coveo_mcp_server/coveo_api.py:117-211 | an empty query is refused without a request; otherwise the fixed request is sent and the answer text is returned |
| `CoveoApi.AnswerIgnoresRestAfterEnd` | src/coveo_mcp_server/coveo_api.py:160-191 | lines after the end marker, and a stream error after them, do not change the answer |
| `CoveoApi.AnswerFromReference` | src/coveo_mcp_server/coveo_api.py:158-206 | the answer is the truthy deltas before the first end event, then the header and one numbered line per citation of the last citations event |
| `CoveoApi.BadRequestAnswer` | src/coveo_mcp_server/coveo_api.py:208-209 | a 400 "Bad Request" status gives "Error: HTTP 400: Bad Request" |
| `CoveoApi.FourLineStreamAnswer` | tests/unit/test_coveo_api.py:225-261 | the two-delta, one-citation example stream gives "This is a test answer", the header and "1. [Citation Title](https://example.com/citation)" |
| `Server.SearchPayload` | src/coveo_mcp_server/server.py:28-43 | the search parameters hold exactly the six keys, with the query and count as given |
| `Server.Contains` | src/coveo_mcp_server/server.py:47-48 | Python's `in` succeeds exactly on a dict, list or str, and on a dict tests the keys |
| `Server.Subscript` | src/coveo_mcp_server/server.py:48 | `data["results"]` succeeds exactly on a dict holding the key, and yields its value |
| `Server.ErrorMessage` | src/coveo_mcp_server/server.py:51 | the error text is produced exactly for a dict; any other value raises at `.get` |
| `Server.SearchMessage` | src/coveo_mcp_server/server.py:47-51 | a dict never raises; its "error" value, "Unknown error occurred" for `{}`, the dumped results when truthy, otherwise the no-results text; which list and str bodies raise |
| `Server.SearchCoveo` | src/coveo_mcp_server/server.py:12-51 | the count defaults to 5; the GET carries the six search keys plus the organization id; the tool returns `SearchMessage` of the client's result |
| `Server.SearchFailureMessage` | src/coveo_mcp_server/server.py:45-51 | a rejected status, a transport exception or an undecodable body surfaces as "Error: HTTP ..." or "Error: Request failed: ..." |
| `Server.SearchResultsMessage` | src/coveo_mcp_server/server.py:47-49 | a dict body with truthy results and no "error" key is answered with the dumped results |
| `Server.PassageMessage` | src/coveo_mcp_server/server.py:72-80 | an exception gives "Error retrieving passages: ..."; an empty result the no-passages text; otherwise the dumped passages |
| `Server.PassageRetrieval` | src/coveo_mcp_server/server.py:55-80 | the count defaults to 5; an empty query sends nothing; no API key gives the `startswith` error text; the query and count are forwarded; a failed request gives the no-passages text |
| `Server.PassageRetrievalDefaultCount` | tests/unit/test_server.py:107-115 | a call with the query alone asks for the default five passages |
| `Server.PassagesReturned` | src/coveo_mcp_server/server.py:75-78 | a dict body with truthy "items" is answered with the dumped items |
| `Server.AnswerMessage` | src/coveo_mcp_server/server.py:99-102 | the client's text is returned as is; an escaping exception becomes "Error generating answer: ..." |
| `Server.AnswerQuestion` | src/coveo_mcp_server/server.py:96-102 | an empty query sends nothing and gives the empty-query error; otherwise the fixed request is sent and the answer text is returned |

## Left out

- Endpoint URLs and their formatting with the organization and configuration ids: the `Request` names the endpoint kind only.
- Timeouts (30 s and 60 s), `async`/`await`, the `httpx` client lifecycle and what `httpx` does with a None header or parameter value.
- Reading the environment (`load_dotenv`, `os.getenv`): the settings are the `Config` value handed to each operation.
- The `print` calls in `retrieve_passages` and in the stream loop: they only log.
- MCP tool registration, the docstrings the assistant sees, `__main__` and the transport test script.
- `json.loads`, `json.dumps` and Python's `str()` of floats, lists and dicts are parameters. The model does not fix their output.
- The default `'{}'` of `data.get('payload', '{}')` is taken as the empty dict without calling the decoder.
- Bytes handed to `json.loads` are outside the `Json` value domain.
- A dict is a `map`, which has no order. Python dicts keep insertion order, and `json.dumps` of the search results and passages and `str()` of a dict-valued citation title render keys in that order. The parameters `dumps` and `repr` therefore cannot tell apart two dicts that differ only in key order.
- CPython's exception texts are written out as CPython 3.11 words them. For example, "string indices must be integers, not 'str'" is the 3.11 wording; older versions omit the type.
- `Server.AnswerMessage`: the only exception that can escape `generate_answer` is one raised inside its status-error handler. That handler reads `e.response.text` of a streamed response whose body was never read, which `httpx` may refuse with an exception; `answer_question` would then answer "Error generating answer: ...". The model does not produce that path, so `AnswerQuestion` always passes the client's text through.
- `CoveoApi.AnswerText`: the status text of a rejected streamed answer response is taken as readable, as the repository's unit tests mock it; what `httpx` does when the unread body's text is accessed is not part of this model.
