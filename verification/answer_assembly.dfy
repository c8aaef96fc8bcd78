/** The meaning of the generative-answer stream: how each line is read,
    how the lines fold into text fragments and a citation list, and how
    the finished fold is rendered as the answer text with its "Sources"
    section. The loops that compute these live in CoveoApi. */
module AnswerAssembly {
  import opened PyValues
  import opened PyStrings

  const DataPrefix := "data:"
  const MessageType := "genqa.messageType"
  const CitationsType := "genqa.citationsType"
  const EndOfStreamType := "genqa.endOfStreamType"
  const SourcesHeader := "\n\n**Sources:**\n"

  /** What one line of the stream means to the assembler. */
  datatype LineEvent =
    | Filtered            // blank, or not starting with `data:`
    | Malformed           // an exception inside the per-line `try`: skipped
    | Message(delta: Json)
    | Citations(list: Json)
    | EndOfStream
    | Unrecognised        // any other, or an absent, payloadType

  /** The fold's state: the text fragments, the citation list, and whether
      an end-of-stream event stopped the loop. */
  datatype Assembly = Assembly(fragments: seq<Json>, citations: Json, stopped: bool)

  const Start := Assembly([], JArr([]), false)

  /** The line test: non-blank and starting with `data:`, the latter
      checked on the line as received. */
  predicate IsDataLine(line: string) {
    Strip(line) != [] && StartsWith(line, DataPrefix)
  }

  /** `line.replace('data:', '').strip()`: the text handed to the decoder. */
  function PayloadText(line: string): string {
    Strip(RemoveAll(line, DataPrefix))
  }

  /** `json.loads(data.get('payload', '{}'))`, kept only when it is a dict,
      since the code calls `.get` on it next. */
  function InnerPayload(data: map<string, Json>, loads: string -> Result<Json, string>): Option<map<string, Json>> {
    if "payload" !in data then Some(map[])
    else match data["payload"]
      case JStr(text) => (match loads(text) case Ok(JObj(p)) => Some(p) case _ => None)
      case _ => None
  }

  /** The dispatch on `payloadType` for a line that decoded to a dict. */
  function Dispatch(data: map<string, Json>, loads: string -> Result<Json, string>): LineEvent {
    var kind := Get(data, "payloadType", JNull);
    if kind == JStr(MessageType) then
      match InnerPayload(data, loads)
      case Some(p) => Message(Get(p, "textDelta", JStr("")))
      case None => Malformed
    else if kind == JStr(CitationsType) then
      match InnerPayload(data, loads)
      case Some(p) => Citations(Get(p, "citations", JArr([])))
      case None => Malformed
    else if kind == JStr(EndOfStreamType) then EndOfStream
    else Unrecognised
  }

  /** What one line stands for: filtered out, malformed (the decoder fails
      or yields something other than a dict), or the dispatch's event. */
  function Classify(line: string, loads: string -> Result<Json, string>): (e: LineEvent)
    ensures e.Filtered? <==> !IsDataLine(line)
  {
    if !IsDataLine(line) then Filtered
    else match loads(PayloadText(line))
      case Ok(JObj(data)) => Dispatch(data, loads)
      case _ => Malformed
  }

  /** The effect of one event on the fold. */
  function Step(a: Assembly, e: LineEvent): (r: Assembly)
    ensures r.fragments == a.fragments + DeltaOf(e)
    ensures r.citations == (if e.Citations? then e.list else a.citations)
    ensures r.stopped <==> a.stopped || e.EndOfStream?
  {
    match e
    case Message(d) => if Truthy(d) then a.(fragments := a.fragments + [d]) else a
    case Citations(c) => a.(citations := c)
    case EndOfStream => a.(stopped := true)
    case _ => a
  }

  /** The fold over the events read so far; once stopped, later events
      are not read. */
  function Run(ev: seq<LineEvent>): Assembly
    decreases |ev|
  {
    if ev == [] then Start
    else
      var a := Run(ev[..|ev| - 1]);
      if a.stopped then a else Step(a, ev[|ev| - 1])
  }

  /** The events the lines of a stream stand for, one per line. */
  function Events(lines: seq<string>, loads: string -> Result<Json, string>): (ev: seq<LineEvent>)
    ensures |ev| == |lines|
    ensures forall i :: 0 <= i < |lines| ==> ev[i] == Classify(lines[i], loads)
    decreases |lines|
  {
    if lines == [] then [] else [Classify(lines[0], loads)] + Events(lines[1..], loads)
  }

  /** Reading two pieces of a stream one after the other gives the events
      of the whole. */
  lemma {:induction false} EventsAppend(lines: seq<string>, more: seq<string>, loads: string -> Result<Json, string>)
    ensures Events(lines + more, loads) == Events(lines, loads) + Events(more, loads)
    decreases |lines|
  {
    if lines == [] {
      assert lines + more == more;
    } else {
      assert (lines + more)[1..] == lines[1..] + more;
      EventsAppend(lines[1..], more, loads);
    }
  }

  /** The fold over the lines of a stream. */
  function Fold(lines: seq<string>, loads: string -> Result<Json, string>): Assembly {
    Run(Events(lines, loads))
  }

  // ---------------------------------------------------------------------
  // A reference reading of the stream: cut it at the first end-of-stream
  // event, keep the truthy message deltas in order, and take the last
  // citations event.

  /** The index of the first end-of-stream event, or the length when there
      is none. */
  function FirstEnd(ev: seq<LineEvent>): (k: nat)
    ensures k <= |ev|
    ensures forall i :: 0 <= i < k ==> !ev[i].EndOfStream?
    ensures k < |ev| ==> ev[k].EndOfStream?
    decreases |ev|
  {
    if ev == [] || ev[0].EndOfStream? then 0 else 1 + FirstEnd(ev[1..])
  }

  /** What a single event contributes to the answer text. */
  function DeltaOf(e: LineEvent): seq<Json> {
    if e.Message? && Truthy(e.delta) then [e.delta] else []
  }

  /** The truthy message deltas, in stream order. */
  function Deltas(ev: seq<LineEvent>): seq<Json>
    decreases |ev|
  {
    if ev == [] then [] else DeltaOf(ev[0]) + Deltas(ev[1..])
  }

  /** The list of the last citations event, or `[]` when there is none. */
  function LastCitations(ev: seq<LineEvent>): Json
    decreases |ev|
  {
    if ev == [] then JArr([])
    else if ev[|ev| - 1].Citations? then ev[|ev| - 1].list
    else LastCitations(ev[..|ev| - 1])
  }

  lemma {:induction false} DeltasAppend(ev: seq<LineEvent>, e: LineEvent)
    ensures Deltas(ev + [e]) == Deltas(ev) + DeltaOf(e)
    decreases |ev|
  {
    if ev != [] {
      assert (ev + [e])[1..] == ev[1..] + [e];
      DeltasAppend(ev[1..], e);
    }
  }

  /** The fold equals the reference reading: the fragments are the truthy
      deltas before the first end-of-stream event, the citations are those
      of the last citations event before it (or `[]`), and the fold has
      stopped exactly when such an event exists. */
  lemma {:induction false} RunIsReference(ev: seq<LineEvent>)
    ensures var k := FirstEnd(ev);
      Run(ev) == Assembly(Deltas(ev[..k]), LastCitations(ev[..k]), k < |ev|)
    decreases |ev|
  {
    if ev != [] {
      var n := |ev|;
      var init, e := ev[..n - 1], ev[n - 1];
      assert ev == init + [e];
      RunIsReference(init);
      FirstEndExtend(init, e);
      var k, kp := FirstEnd(ev), FirstEnd(init);
      if kp < n - 1 {
        assert ev[..k] == init[..kp];
      } else if e.EndOfStream? {
        assert ev[..k] == init[..kp];
      } else {
        assert ev[..k] == init[..kp] + [e];
        DeltasAppend(init[..kp], e);
      }
    }
  }

  /** The first end-of-stream event of a longer stream: the old one if
      there was one, else the new event's position if it is one. */
  lemma {:induction false} FirstEndExtend(ev: seq<LineEvent>, e: LineEvent)
    ensures FirstEnd(ev + [e]) ==
      if FirstEnd(ev) < |ev| then FirstEnd(ev)
      else if e.EndOfStream? then |ev| else |ev| + 1
    decreases |ev|
  {
    if ev == [] {
      assert FirstEnd([e]) == if e.EndOfStream? then 0 else 1 + FirstEnd([]);
    } else if !ev[0].EndOfStream? {
      assert (ev + [e])[1..] == ev[1..] + [e];
      FirstEndExtend(ev[1..], e);
    }
  }

  /** The same statement for the lines of a stream. */
  lemma FoldIsReference(lines: seq<string>, loads: string -> Result<Json, string>)
    ensures var ev := Events(lines, loads); var k := FirstEnd(ev);
      Fold(lines, loads) == Assembly(Deltas(ev[..k]), LastCitations(ev[..k]), k < |ev|)
  {
    RunIsReference(Events(lines, loads));
  }

  /** Reading one more event while not stopped applies its step. */
  lemma RunPrefixStep(ev: seq<LineEvent>, i: nat)
    requires i < |ev| && !Run(ev[..i]).stopped
    ensures Run(ev[..i + 1]) == Step(Run(ev[..i]), ev[i])
  {
    assert ev[..i + 1][..i] == ev[..i];
  }

  /** Reading event `i` from a state that has not stopped: its truthy delta
      is appended, a citations event replaces the list, and an end event
      stops the fold. */
  lemma ReadEventStep(ev: seq<LineEvent>, i: nat, fragments: seq<Json>, citations: Json)
    requires i < |ev| && Run(ev[..i]) == Assembly(fragments, citations, false)
    ensures Run(ev[..i + 1]) == Assembly(
      fragments + DeltaOf(ev[i]),
      if ev[i].Citations? then ev[i].list else citations,
      ev[i].EndOfStream?)
  {
    RunPrefixStep(ev, i);
  }

  /** Once the fold has stopped, further events have no effect. */
  lemma {:induction false} StoppedRunIgnoresRest(ev: seq<LineEvent>, more: seq<LineEvent>)
    requires Run(ev).stopped
    ensures Run(ev + more) == Run(ev)
    decreases |more|
  {
    if more != [] {
      var m := |more|;
      StoppedRunIgnoresRest(ev, more[..m - 1]);
      assert (ev + more)[..|ev + more| - 1] == ev + more[..m - 1];
      assert Run(ev + more) == Run(ev + more[..m - 1]);
    } else {
      assert ev + more == ev;
    }
  }

  /** Once an end-of-stream line has stopped the fold, the lines after it
      have no effect. */
  lemma StoppedFoldIgnoresRest(lines: seq<string>, more: seq<string>, loads: string -> Result<Json, string>)
    requires Fold(lines, loads).stopped
    ensures Fold(lines + more, loads) == Fold(lines, loads)
  {
    EventsAppend(lines, more, loads);
    StoppedRunIgnoresRest(Events(lines, loads), Events(more, loads));
  }

  /** A line that is filtered out, malformed, or of an unknown type leaves
      the fragments and citations as they were, and reading goes on. */
  lemma SkippedLineChangesNothing(lines: seq<string>, line: string, loads: string -> Result<Json, string>)
    requires Classify(line, loads) in {Filtered, Malformed, Unrecognised}
    ensures Fold(lines + [line], loads) == Fold(lines, loads)
  {
    EventsAppend(lines, [line], loads);
    RunSkips(Events(lines, loads), Classify(line, loads));
  }

  /** An event that is not a message, citations or end of stream is a
      no-op for the fold. */
  lemma RunSkips(ev: seq<LineEvent>, e: LineEvent)
    requires e in {Filtered, Malformed, Unrecognised}
    ensures Run(ev + [e]) == Run(ev)
  {
    assert (ev + [e])[..|ev|] == ev;
  }

  /** A well-formed data line: the `data:` prefix followed by a payload
      that holds no further `data:` and no surrounding whitespace is handed
      to the decoder as exactly that payload. */
  lemma DataLinePayload(payload: string)
    requires CleanPayload(payload)
    ensures IsDataLine(DataPrefix + payload)
    ensures PayloadText(DataPrefix + payload) == payload
  {
    RemoveAllLeading(payload, DataPrefix);
    assert StripStart(payload) == payload;
    assert StripEnd(payload) == payload;
    var line := DataPrefix + payload;
    assert line[..|DataPrefix|] == DataPrefix;
    assert !AllSpace(line) by { assert !IsSpace(line[0]); }
  }

  predicate CleanPayload(p: string) {
    !Occurs(DataPrefix, p) && p != [] && !IsSpace(p[0]) && !IsSpace(p[|p| - 1])
  }

  lemma EventTypesDistinct()
    ensures MessageType != CitationsType && MessageType != EndOfStreamType && CitationsType != EndOfStreamType
  {
    assert MessageType[6] == 'm' && CitationsType[6] == 'c' && EndOfStreamType[6] == 'e';
  }

  /** A clean data line whose payload decodes to a dict stands for the
      dispatch of that dict. */
  lemma ClassifyDataLine(j: string, data: map<string, Json>, loads: string -> Result<Json, string>)
    requires CleanPayload(j) && loads(j) == Ok(JObj(data))
    ensures Classify(DataPrefix + j, loads) == Dispatch(data, loads)
  {
    DataLinePayload(j);
  }

  /** A message event, whatever other keys it carries, stands for the
      `textDelta` of its nested payload, `''` when that key is absent. */
  lemma DispatchMessage(data: map<string, Json>, p: map<string, Json>, loads: string -> Result<Json, string>)
    requires Get(data, "payloadType", JNull) == JStr(MessageType) && InnerPayload(data, loads) == Some(p)
    ensures Dispatch(data, loads) == Message(Get(p, "textDelta", JStr("")))
    ensures "textDelta" in p ==> Dispatch(data, loads) == Message(p["textDelta"])
    ensures "textDelta" !in p ==> Dispatch(data, loads) == Message(JStr(""))
  {
  }

  /** A citations event, whatever other keys it carries, stands for the
      `citations` of its nested payload; without that key, or without a
      nested payload at all, it stands for the empty list, which resets the
      citations read so far. */
  lemma DispatchCitations(data: map<string, Json>, p: map<string, Json>, loads: string -> Result<Json, string>)
    requires Get(data, "payloadType", JNull) == JStr(CitationsType) && InnerPayload(data, loads) == Some(p)
    ensures Dispatch(data, loads) == Citations(Get(p, "citations", JArr([])))
    ensures "citations" !in p ==> Dispatch(data, loads) == Citations(JArr([]))
  {
    EventTypesDistinct();
  }

  /** A citations event with no nested payload resets the list to `[]`:
      the default `'{}'` decodes to a dict without `citations`. */
  lemma CitationsWithoutPayload(data: map<string, Json>, loads: string -> Result<Json, string>)
    requires Get(data, "payloadType", JNull) == JStr(CitationsType) && "payload" !in data
    ensures Dispatch(data, loads) == Citations(JArr([]))
    ensures Step(Assembly([], JArr([JStr("earlier")]), false), Dispatch(data, loads)).citations == JArr([])
  {
    DispatchCitations(data, map[], loads);
  }

  /** An end-of-stream event, whatever other keys it carries, stops the
      reading. */
  lemma DispatchEnd(data: map<string, Json>, loads: string -> Result<Json, string>)
    requires Get(data, "payloadType", JNull) == JStr(EndOfStreamType)
    ensures Dispatch(data, loads) == EndOfStream
  {
    EventTypesDistinct();
  }

  /** The dispatch in full: which event a decoded dict stands for, in terms
      of its `payloadType` and whether its nested payload decodes to a dict. */
  lemma DispatchKinds(data: map<string, Json>, loads: string -> Result<Json, string>)
    ensures var e := Dispatch(data, loads); var kind := Get(data, "payloadType", JNull);
      var nested := InnerPayload(data, loads).Some?;
      && (e.Message? <==> kind == JStr(MessageType) && nested)
      && (e.Citations? <==> kind == JStr(CitationsType) && nested)
      && (e.EndOfStream? <==> kind == JStr(EndOfStreamType))
      && (e.Malformed? <==> (kind == JStr(MessageType) || kind == JStr(CitationsType)) && !nested)
      && (e.Unrecognised? <==> kind != JStr(MessageType) && kind != JStr(CitationsType) && kind != JStr(EndOfStreamType))
      && !e.Filtered?
  {
    EventTypesDistinct();
  }

  // ---------------------------------------------------------------------
  // Rendering

  /** `''.join(parts)` for strings already known to be strings. */
  function Concat(parts: seq<string>): string
    decreases |parts|
  {
    if parts == [] then "" else parts[0] + Concat(parts[1..])
  }

  lemma {:induction false} ConcatAppend(parts: seq<string>, p: string)
    ensures Concat(parts + [p]) == Concat(parts) + p
    decreases |parts|
  {
    if parts != [] {
      assert (parts + [p])[1..] == parts[1..] + [p];
      ConcatAppend(parts[1..], p);
    }
  }

  predicate AllStrings(items: seq<Json>) {
    forall i :: 0 <= i < |items| ==> items[i].JStr?
  }

  function Texts(items: seq<Json>): (t: seq<string>)
    requires AllStrings(items)
    ensures |t| == |items|
  {
    seq(|items|, i requires 0 <= i < |items| => items[i].s)
  }

  /** The TypeError `''.join` raises at the first item that is not a str. */
  function JoinItemMessage(i: nat, v: Json): string {
    "sequence item " + NatToString(i) + ": expected str instance, " + TypeName(v) + " found"
  }

  /** `''.join(items)`: it succeeds exactly when every item is a str, and
      then yields their concatenation in order. */
  function Join(items: seq<Json>): (r: Outcome<string>)
    ensures r.Returned? <==> AllStrings(items)
    ensures r.Returned? ==> r.value == Concat(Texts(items))
    decreases |items|
  {
    if items == [] then Returned("")
    else
      var n := |items|;
      var init := items[..n - 1];
      match Join(init)
      case Raised(m) => Raised(m)
      case Returned(t) =>
        if items[n - 1].JStr? then
          assert Texts(items) == Texts(init) + [items[n - 1].s];
          ConcatAppend(Texts(init), items[n - 1].s);
          Returned(t + items[n - 1].s)
        else Raised(JoinItemMessage(n - 1, items[n - 1]))
  }

  /** One line of the Sources list: `"{i+1}. [{title}]({clickUri})\n"`, with
      `Untitled` and `#` for an absent title and link. */
  function SourceLine(i: nat, c: map<string, Json>, repr: Json -> string): string {
    NatToString(i + 1) + ". [" + Str(Get(c, "title", JStr("Untitled")), repr) + "]("
      + Str(Get(c, "clickUri", JStr("#")), repr) + ")\n"
  }

  /** The lines the `for` loop appends for a citation list; the first item
      that is not a dict ends it with the AttributeError of `.get`. */
  function SourceLines(items: seq<Json>, repr: Json -> string): Outcome<string>
    decreases |items|
  {
    if items == [] then Returned("")
    else
      var n := |items|;
      match SourceLines(items[..n - 1], repr)
      case Raised(m) => Raised(m)
      case Returned(t) =>
        match items[n - 1]
        case JObj(c) => Returned(t + SourceLine(n - 1, c, repr))
        case v => Raised(NoAttributeMessage(v, "get"))
  }

  /** One more dict citation adds its numbered line. */
  lemma SourceLinesExtend(items: seq<Json>, i: nat, t: string, repr: Json -> string)
    requires i < |items| && items[i].JObj? && SourceLines(items[..i], repr) == Returned(t)
    ensures SourceLines(items[..i + 1], repr) == Returned(t + SourceLine(i, items[i].fields, repr))
  {
    assert items[..i + 1][..i] == items[..i];
  }

  predicate AllDicts(items: seq<Json>) {
    forall i :: 0 <= i < |items| ==> items[i].JObj?
  }

  /** The numbered line of every citation, by position. */
  function NumberedLines(items: seq<Json>, repr: Json -> string): (lines: seq<string>)
    requires AllDicts(items)
    ensures |lines| == |items|
    decreases |items|
  {
    if items == [] then []
    else
      var n := |items|;
      NumberedLines(items[..n - 1], repr) + [SourceLine(n - 1, items[n - 1].fields, repr)]
  }

  /** The line at position `i` is citation `i`'s, numbered `i + 1`. */
  lemma {:induction false} NumberedLineAt(items: seq<Json>, i: nat, repr: Json -> string)
    requires AllDicts(items) && i < |items|
    ensures NumberedLines(items, repr)[i] == SourceLine(i, items[i].fields, repr)
    decreases |items|
  {
    var n := |items|;
    var init := items[..n - 1];
    var before := NumberedLines(init, repr);
    assert NumberedLines(items, repr) == before + [SourceLine(n - 1, items[n - 1].fields, repr)];
    if i < n - 1 {
      assert init[i] == items[i];
      NumberedLineAt(init, i, repr);
      assert NumberedLines(items, repr)[i] == before[i];
    }
  }

  /** When every citation is a dict, the list holds one numbered line per
      citation, in array order, numbered from 1. */
  lemma {:induction false} SourceLinesNumbered(items: seq<Json>, repr: Json -> string)
    requires AllDicts(items)
    ensures SourceLines(items, repr) == Returned(Concat(NumberedLines(items, repr)))
    decreases |items|
  {
    if items != [] {
      var n := |items|;
      var init := items[..n - 1];
      SourceLinesNumbered(init, repr);
      var before := NumberedLines(init, repr);
      var last := SourceLine(n - 1, items[n - 1].fields, repr);
      assert SourceLines(items, repr) == Returned(Concat(before) + last);
      ConcatAppend(before, last);
    }
  }

  /** An error raised on a prefix is the error of the whole list. */
  lemma SourceLinesRaisedStep(items: seq<Json>, m: string, repr: Json -> string)
    requires items != [] && SourceLines(items[..|items| - 1], repr) == Raised(m)
    ensures SourceLines(items, repr) == Raised(m)
  {
  }

  /** A last item that is not a dict, after dicts only, raises at `.get`. */
  lemma SourceLinesLastFails(items: seq<Json>, repr: Json -> string)
    requires items != [] && !items[|items| - 1].JObj? && SourceLines(items[..|items| - 1], repr).Returned?
    ensures SourceLines(items, repr) == Raised(NoAttributeMessage(items[|items| - 1], "get"))
  {
  }

  /** The error raised at citation `k` is the outcome of every longer
      prefix. */
  lemma {:induction false} SourceLinesFailFrom(items: seq<Json>, k: nat, j: nat, repr: Json -> string)
    requires k < j <= |items| && !items[k].JObj? && SourceLines(items[..k], repr).Returned?
    ensures SourceLines(items[..j], repr) == Raised(NoAttributeMessage(items[k], "get"))
    decreases j
  {
    var prefix := items[..j];
    assert prefix[..j - 1] == items[..j - 1];
    if j == k + 1 {
      SourceLinesLastFails(prefix, repr);
    } else {
      SourceLinesFailFrom(items, k, j - 1, repr);
      SourceLinesRaisedStep(prefix, NoAttributeMessage(items[k], "get"), repr);
    }
  }

  /** The first citation that is not a dict decides the outcome: its
      `.get` raises, whatever follows it. */
  lemma SourceLinesFailFast(items: seq<Json>, k: nat, repr: Json -> string)
    requires k < |items| && !items[k].JObj? && SourceLines(items[..k], repr).Returned?
    ensures SourceLines(items, repr) == Raised(NoAttributeMessage(items[k], "get"))
  {
    SourceLinesFailFrom(items, k, |items|, repr);
    assert items[..|items|] == items;
  }

  /** The Sources section for a truthy citation value: the header and the
      numbered lines for a list; iterating a str or a dict yields strs,
      which have no `.get`; any other value is not iterable. */
  function SourcesSection(citations: Json, repr: Json -> string): Outcome<string> {
    match citations
    case JArr(items) =>
      (match SourceLines(items, repr)
       case Returned(t) => Returned(SourcesHeader + t)
       case Raised(m) => Raised(m))
    case JStr(_) => Raised(NoAttributeMessage(JStr(""), "get"))
    case JObj(_) => Raised(NoAttributeMessage(JStr(""), "get"))
    case _ => Raised(NotIterableMessage(citations))
  }

  /** The position of the first citation that is not a dict, or the
      length when every citation is one. */
  function FirstNonDict(items: seq<Json>): (k: nat)
    ensures k <= |items|
    ensures forall j :: 0 <= j < k ==> items[j].JObj?
    ensures k < |items| ==> !items[k].JObj?
    decreases |items|
  {
    if items == [] || !items[0].JObj? then 0 else 1 + FirstNonDict(items[1..])
  }

  /** The Sources section succeeds exactly for a list of dicts, and is then
      the header and one numbered line per citation; otherwise the list's
      first non-dict raises at `.get`. */
  lemma SourcesSectionMeaning(citations: Json, repr: Json -> string)
    ensures SourcesSection(citations, repr).Returned? <==> citations.JArr? && AllDicts(citations.items)
    ensures citations.JArr? && AllDicts(citations.items) ==>
      SourcesSection(citations, repr) == Returned(SourcesHeader + Concat(NumberedLines(citations.items, repr)))
    ensures citations.JArr? && !AllDicts(citations.items) ==>
      SourcesSection(citations, repr) == Raised(NoAttributeMessage(citations.items[FirstNonDict(citations.items)], "get"))
  {
    if citations.JArr? {
      var items := citations.items;
      var k := FirstNonDict(items);
      if k == |items| {
        SourceLinesNumbered(items, repr);
      } else {
        assert AllDicts(items[..k]);
        SourceLinesNumbered(items[..k], repr);
        SourceLinesFailFast(items, k, repr);
      }
    }
  }

  /** The answer text for a finished fold: the joined fragments, followed
      by the Sources section when the citation value is truthy. */
  function Render(a: Assembly, repr: Json -> string): Outcome<string> {
    match Join(a.fragments)
    case Raised(m) => Raised(m)
    case Returned(text) =>
      if !Truthy(a.citations) then Returned(text)
      else match SourcesSection(a.citations, repr)
        case Raised(m) => Raised(m)
        case Returned(section) => Returned(text + section)
  }

  /** For string fragments and a list of dict citations, the answer is the
      fragments in order, then, when there is at least one citation, the
      header and one numbered line per citation. */
  lemma RenderShape(fragments: seq<Json>, items: seq<Json>, stopped: bool, repr: Json -> string)
    requires AllStrings(fragments) && AllDicts(items)
    ensures Render(Assembly(fragments, JArr(items), stopped), repr) == Returned(
      Concat(Texts(fragments))
      + (if items == [] then "" else SourcesHeader + Concat(NumberedLines(items, repr))))
  {
    var text := Concat(Texts(fragments));
    assert Join(fragments) == Returned(text);
    if items == [] {
      assert text + "" == text;
    } else {
      SourceLinesNumbered(items, repr);
      assert SourcesSection(JArr(items), repr) == Returned(SourcesHeader + Concat(NumberedLines(items, repr)));
    }
  }
}
