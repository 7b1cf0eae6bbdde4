/**
 * The client side of the answer stream (frontend-svelte/src/lib/api/chat.ts):
 * the message and request records, the request-body defaults, and
 * `processStream`, which splits every decoded read on '\n', keeps the lines
 * that start with "data: ", drops blank payloads, routes payloads that mention
 * "__SOURCES__" to the sources callback and forwards every other payload as
 * answer text while counting its characters.
 *
 * Callbacks are modelled as the ordered list of calls they receive (`Event`).
 * Each read carries the clock reading used while it is processed. The
 * floating-point speed arithmetic is not modelled: a speed event records the
 * integer clock readings and the character count it is computed from.
 */
module ChatApi {
  import opened Wrappers
  import opened Text

  datatype Role = User | Assistant

  /** One cited passage and its relevance score. */
  datatype SourceInfo = SourceInfo(source: string, score: real)

  /** A chat message; every field but the role and the content is optional. */
  datatype Message = Message(
    role: Role,
    content: string,
    sources: Option<seq<SourceInfo>>,
    qualityScore: Option<real>,
    responseTime: Option<real>,
    generationTime: Option<real>,
    speed: Option<real>,
    characterPreset: Option<string>)

  /** A request body: an object whose keys are all optional (`Partial<QueryRequest>`). */
  datatype RequestBody = RequestBody(
    question: Option<string>,
    stream: Option<bool>,
    model: Option<string>,
    use_rag: Option<bool>,
    query_expansion: Option<bool>,
    use_hybrid_search: Option<bool>,
    chat_history: Option<seq<Message>>,
    system_prompt: Option<string>,
    tags: Option<seq<string>>,
    temperature: Option<real>,
    document_count: Option<real>,
    search_multiplier: Option<real>,
    top_p: Option<real>,
    repeat_penalty: Option<real>,
    num_predict: Option<real>)

  const NoOptions := RequestBody(None, None, None, None, None, None, None, None, None, None, None, None, None, None, None)

  /** One key of a spread: present when either object has it, the overriding value winning. */
  function Override<T>(base: Option<T>, over: Option<T>): (r: Option<T>)
    ensures r.Some? <==> base.Some? || over.Some?
    ensures over.Some? ==> r == over
    ensures over.None? ==> r == base
  {
    if over.Some? then over else base
  }

  /** Object spread `{...base, ...over}` over the request keys. */
  function Spread(base: RequestBody, over: RequestBody): (r: RequestBody)
    ensures r.question == Override(base.question, over.question)
    ensures r.stream == Override(base.stream, over.stream)
    ensures r.model == Override(base.model, over.model)
    ensures r.use_rag == Override(base.use_rag, over.use_rag)
    ensures r.query_expansion == Override(base.query_expansion, over.query_expansion)
    ensures r.use_hybrid_search == Override(base.use_hybrid_search, over.use_hybrid_search)
    ensures r.chat_history == Override(base.chat_history, over.chat_history)
    ensures r.system_prompt == Override(base.system_prompt, over.system_prompt)
    ensures r.tags == Override(base.tags, over.tags)
    ensures r.temperature == Override(base.temperature, over.temperature)
    ensures r.document_count == Override(base.document_count, over.document_count)
    ensures r.search_multiplier == Override(base.search_multiplier, over.search_multiplier)
    ensures r.top_p == Override(base.top_p, over.top_p)
    ensures r.repeat_penalty == Override(base.repeat_penalty, over.repeat_penalty)
    ensures r.num_predict == Override(base.num_predict, over.num_predict)
    ensures over == NoOptions ==> r == base
  {
    RequestBody(
      Override(base.question, over.question), Override(base.stream, over.stream),
      Override(base.model, over.model), Override(base.use_rag, over.use_rag),
      Override(base.query_expansion, over.query_expansion),
      Override(base.use_hybrid_search, over.use_hybrid_search),
      Override(base.chat_history, over.chat_history),
      Override(base.system_prompt, over.system_prompt), Override(base.tags, over.tags),
      Override(base.temperature, over.temperature),
      Override(base.document_count, over.document_count),
      Override(base.search_multiplier, over.search_multiplier),
      Override(base.top_p, over.top_p), Override(base.repeat_penalty, over.repeat_penalty),
      Override(base.num_predict, over.num_predict))
  }

  /**
   * The body `sendQuestionStream` posts: `question`, `stream: true`,
   * `use_rag: true` and `use_hybrid_search: true`, each overridden by the
   * caller's options when the options carry that key.
   */
  function StreamRequestBody(question: string, options: RequestBody): (r: RequestBody)
    ensures r == options.(question := Some(options.question.GetOr(question)),
                          stream := Some(options.stream.GetOr(true)),
                          use_rag := Some(options.use_rag.GetOr(true)),
                          use_hybrid_search := Some(options.use_hybrid_search.GetOr(true)))
    ensures r.question == Some(options.question.GetOr(question))
    ensures r.stream == Some(options.stream.GetOr(true))
    ensures r.use_rag == Some(options.use_rag.GetOr(true))
    ensures r.use_hybrid_search == Some(options.use_hybrid_search.GetOr(true))
    ensures r.model == options.model && r.tags == options.tags && r.chat_history == options.chat_history
    ensures options == NoOptions ==>
      r == NoOptions.(question := Some(question), stream := Some(true), use_rag := Some(true), use_hybrid_search := Some(true))
  {
    Spread(NoOptions.(question := Some(question), stream := Some(true), use_rag := Some(true),
                      use_hybrid_search := Some(true)), options)
  }

  /** The body `sendQuestion` (non-streaming) posts: `stream: false` and `use_rag: true` unless overridden. */
  function PlainRequestBody(question: string, options: RequestBody): (r: RequestBody)
    ensures r == options.(question := Some(options.question.GetOr(question)),
                          stream := Some(options.stream.GetOr(false)),
                          use_rag := Some(options.use_rag.GetOr(true)))
    ensures r.question == Some(options.question.GetOr(question))
    ensures r.stream == Some(options.stream.GetOr(false))
    ensures r.use_rag == Some(options.use_rag.GetOr(true))
    ensures r.use_hybrid_search == options.use_hybrid_search
  {
    Spread(NoOptions.(question := Some(question), stream := Some(false), use_rag := Some(true)), options)
  }

  /** Spreading the same options twice changes nothing more. */
  lemma SpreadIdempotent(base: RequestBody, over: RequestBody)
    ensures Spread(Spread(base, over), over) == Spread(base, over)
  {
  }

  // ---------------------------------------------------------------------------
  // processStream

  /** One callback invocation, in the order `processStream` makes them. */
  datatype Event =
    | OnChunk(text: string)
    | OnSources(sources: seq<SourceInfo>, qualityScore: real)
    | OnSpeed(requestStart: int, firstChunkTime: int, now: int, charCount: nat)
    | OnComplete

  /** What the abstract JSON parser extracts from a control payload (`None` keys are absent or falsy). */
  datatype ControlRecord = ControlRecord(source_scores: Option<seq<SourceInfo>>, quality_score: Option<real>)

  /** One decoded read and the clock reading taken while its lines are processed. */
  datatype Read = Read(text: string, at: int)

  /** How the body ends: `done` at a clock reading, or a failing `read()`. */
  datatype StreamEnd = EndOfStream(at: int) | ReadError

  datatype Outcome = Completed | Failed

  /** The loop's bookkeeping: `firstChunkTime` (null is `None`) and `charCount`. */
  datatype Tracker = Tracker(firstChunkTime: Option<int>, charCount: nat)

  datatype Progress = Progress(tracker: Tracker, events: seq<Event>)

  const DataPrefix := "data: "
  const SourcesMarker := "__SOURCES__"
  const SourcesTag := "__SOURCES__:"

  /** JavaScript falsiness of `firstChunkTime`: null or 0. */
  predicate Unset(t: Option<int>) {
    t.None? || t.value == 0
  }

  /** The characters `.` matches up to: everything before the first line terminator. */
  function UntilLineEnd(s: string): (r: string)
    ensures StartsWith(s, r)
    ensures forall i | 0 <= i < |r| :: r[i] !in "\n\r\U{2028}\U{2029}"
    ensures |r| < |s| ==> s[|r|] in "\n\r\U{2028}\U{2029}"
  {
    if s == [] || s[0] in "\n\r\U{2028}\U{2029}" then [] else [s[0]] + UntilLineEnd(s[1..])
  }

  /** The capture of `/__SOURCES__:(.*)/` at its leftmost match, if any. */
  function SourcesJson(data: string): (r: Option<string>)
    ensures r.Some? <==> Contains(data, SourcesTag)
    decreases |data|
  {
    if StartsWith(data, SourcesTag) then Some(UntilLineEnd(data[|SourcesTag|..]))
    else if data == [] then None
    else SourcesJson(data[1..])
  }

  /** The sources callback a control payload causes: none when the tag or the JSON is unusable. */
  function ControlEvents(data: string, parse: string -> Option<ControlRecord>): (r: seq<Event>)
    ensures |r| <= 1
    ensures forall i | 0 <= i < |r| :: r[i].OnSources?
  {
    match SourcesJson(data)
    case None => []
    case Some(json) =>
      match parse(json)
      case None => []
      case Some(rec) => [OnSources(rec.source_scores.GetOr([]), rec.quality_score.GetOr(0.0))]
  }

  /** One payload (the text after "data: "). */
  function StepPayload(t: Tracker, data: string, now: int, start: int,
                       parse: string -> Option<ControlRecord>): (r: Progress)
    ensures IsBlank(data) ==> r == Progress(t, [])
    ensures r.tracker.charCount >= t.charCount
    ensures !Unset(t.firstChunkTime) ==> r.tracker.firstChunkTime == t.firstChunkTime
  {
    if IsBlank(data) then Progress(t, [])
    else if Contains(data, SourcesMarker) then Progress(t, ControlEvents(data, parse))
    else
      var first := if Unset(t.firstChunkTime) && |data| > 0 then Some(now) else t.firstChunkTime;
      var count := if |data| > 0 then t.charCount + |data| else t.charCount;
      var speed := if !Unset(first) && count > 0 then [OnSpeed(start, first.value, now, count)] else [];
      Progress(Tracker(first, count), [OnChunk(data)] + speed)
  }

  /** One line of a read: only "data: " lines do anything. */
  function StepLine(t: Tracker, line: string, now: int, start: int,
                    parse: string -> Option<ControlRecord>): (r: Progress)
    ensures !StartsWith(line, DataPrefix) ==> r == Progress(t, [])
    ensures r.tracker.charCount >= t.charCount
    ensures !Unset(t.firstChunkTime) ==> r.tracker.firstChunkTime == t.firstChunkTime
  {
    if StartsWith(line, DataPrefix) then StepPayload(t, line[|DataPrefix|..], now, start, parse)
    else Progress(t, [])
  }

  /** The lines of one read, left to right. */
  function StepLines(t: Tracker, lines: seq<string>, now: int, start: int,
                     parse: string -> Option<ControlRecord>): (r: Progress)
    ensures r.tracker.charCount >= t.charCount
    ensures !Unset(t.firstChunkTime) ==> r.tracker.firstChunkTime == t.firstChunkTime
    decreases |lines|
  {
    if lines == [] then Progress(t, [])
    else
      var p := StepLines(t, lines[..|lines| - 1], now, start, parse);
      var q := StepLine(p.tracker, lines[|lines| - 1], now, start, parse);
      Progress(q.tracker, p.events + q.events)
  }

  /** The reads of a stream, each split on '\n' by itself. */
  function StepReads(t: Tracker, received: seq<Read>, start: int,
                     parse: string -> Option<ControlRecord>): (r: Progress)
    ensures r.tracker.charCount >= t.charCount
    ensures !Unset(t.firstChunkTime) ==> r.tracker.firstChunkTime == t.firstChunkTime
    decreases |received|
  {
    if received == [] then Progress(t, [])
    else
      var p := StepReads(t, received[..|received| - 1], start, parse);
      var r := received[|received| - 1];
      var q := StepLines(p.tracker, Split(r.text, '\n'), r.at, start, parse);
      Progress(q.tracker, p.events + q.events)
  }

  /** The calls made when the body ends: a final speed report if text arrived, then completion. */
  function FinalEvents(t: Tracker, start: int, end: StreamEnd): (r: seq<Event>)
    ensures end.ReadError? ==> r == []
    ensures end.EndOfStream? ==> r != [] && r[|r| - 1] == OnComplete && (|r| == 1 || (|r| == 2 && r[0].OnSpeed?))
  {
    match end
    case ReadError => []
    case EndOfStream(at) =>
      (if !Unset(t.firstChunkTime) && t.charCount > 0
       then [OnSpeed(start, t.firstChunkTime.value, at, t.charCount)] else [])
      + [OnComplete]
  }

  /** Every callback `processStream` makes for a stream, in order. */
  function StreamEvents(start: int, received: seq<Read>, end: StreamEnd,
                        parse: string -> Option<ControlRecord>): (r: seq<Event>)
    ensures end.EndOfStream? ==> r != [] && r[|r| - 1] == OnComplete
  {
    var p := StepReads(Tracker(None, 0), received, start, parse);
    p.events + FinalEvents(p.tracker, start, end)
  }

  /** `StepLines` over one more line. */
  lemma StepLinesSnoc(t: Tracker, lines: seq<string>, j: nat, now: int, start: int,
                      parse: string -> Option<ControlRecord>)
    requires j < |lines|
    ensures var p := StepLines(t, lines[..j], now, start, parse);
            var q := StepLine(p.tracker, lines[j], now, start, parse);
            StepLines(t, lines[..j + 1], now, start, parse) == Progress(q.tracker, p.events + q.events)
  {
    assert lines[..j + 1][..j] == lines[..j];
  }

  /** `StepReads` over one more read. */
  lemma StepReadsSnoc(t: Tracker, received: seq<Read>, i: nat, start: int,
                      parse: string -> Option<ControlRecord>)
    requires i < |received|
    ensures var p := StepReads(t, received[..i], start, parse);
            var q := StepLines(p.tracker, Split(received[i].text, '\n'), received[i].at, start, parse);
            StepReads(t, received[..i + 1], start, parse) == Progress(q.tracker, p.events + q.events)
  {
    assert received[..i + 1][..i] == received[..i];
  }

  /** The body of the inner loop of `processStream`: one line of a read. */
  method ProcessLine(line: string, firstChunkTime: Option<int>, charCount: nat, now: int,
                     requestStartTime: int, parse: string -> Option<ControlRecord>)
    returns (first: Option<int>, count: nat, emitted: seq<Event>)
    ensures Progress(Tracker(first, count), emitted)
         == StepLine(Tracker(firstChunkTime, charCount), line, now, requestStartTime, parse)
  {
    first, count, emitted := firstChunkTime, charCount, [];
    if StartsWith(line, DataPrefix) {
      var data := line[|DataPrefix|..];
      if !IsBlank(data) {
        if Contains(data, SourcesMarker) {
          var json := SourcesJson(data);
          if json.Some? {
            var rec := parse(json.value);
            if rec.Some? {
              emitted := [OnSources(rec.value.source_scores.GetOr([]), rec.value.quality_score.GetOr(0.0))];
            }
          }
        } else {
          if Unset(first) && |data| > 0 {
            first := Some(now);
          }
          if |data| > 0 {
            count := count + |data|;
          }
          emitted := [OnChunk(data)];
          if !Unset(first) && count > 0 {
            emitted := emitted + [OnSpeed(requestStartTime, first.value, now, count)];
          }
        }
      }
    }
  }

  /** The inner `for` loop of `processStream`: the lines of one read, one after another. */
  method ProcessRead(r: Read, firstChunkTime: Option<int>, charCount: nat,
                     requestStartTime: int, parse: string -> Option<ControlRecord>)
    returns (first: Option<int>, count: nat, emitted: seq<Event>)
    ensures Progress(Tracker(first, count), emitted)
         == StepLines(Tracker(firstChunkTime, charCount), Split(r.text, '\n'), r.at, requestStartTime, parse)
  {
    var lines := Split(r.text, '\n');
    ghost var t0 := Tracker(firstChunkTime, charCount);
    first, count, emitted := firstChunkTime, charCount, [];
    var j := 0;
    while j < |lines|
      invariant 0 <= j <= |lines|
      invariant StepLines(t0, lines[..j], r.at, requestStartTime, parse) == Progress(Tracker(first, count), emitted)
    {
      StepLinesSnoc(t0, lines, j, r.at, requestStartTime, parse);
      var more;
      first, count, more := ProcessLine(lines[j], first, count, r.at, requestStartTime, parse);
      emitted := emitted + more;
      j := j + 1;
    }
    assert lines[..j] == lines;
  }

  /**
   * `processStream`: the read loop with its nested loop over lines. It makes
   * exactly the calls `StreamEvents` lists and completes only at end of
   * stream.
   */
  method ProcessStream(received: seq<Read>, end: StreamEnd, requestStartTime: int,
                       parse: string -> Option<ControlRecord>)
    returns (events: seq<Event>, outcome: Outcome)
    ensures events == StreamEvents(requestStartTime, received, end, parse)
    ensures outcome == (if end.EndOfStream? then Completed else Failed)
  {
    var firstChunkTime: Option<int> := None;
    var charCount: nat := 0;
    events := [];
    var i := 0;
    while i < |received|
      invariant 0 <= i <= |received|
      invariant StepReads(Tracker(None, 0), received[..i], requestStartTime, parse)
             == Progress(Tracker(firstChunkTime, charCount), events)
    {
      StepReadsSnoc(Tracker(None, 0), received, i, requestStartTime, parse);
      var emitted;
      firstChunkTime, charCount, emitted := ProcessRead(received[i], firstChunkTime, charCount, requestStartTime, parse);
      events := events + emitted;
      i := i + 1;
    }
    assert received[..i] == received;
    match end {
      case EndOfStream(at) =>
        if !Unset(firstChunkTime) && charCount > 0 {
          events := events + [OnSpeed(requestStartTime, firstChunkTime.value, at, charCount)];
        }
        events := events + [OnComplete];
        outcome := Completed;
      case ReadError =>
        outcome := Failed;
    }
  }

  // ---------------------------------------------------------------------------
  // Properties of the stream specification

  /** The payloads passed to `onChunk`, in order. */
  function Texts(events: seq<Event>): seq<string>
    decreases |events|
  {
    if events == [] then []
    else Texts(events[..|events| - 1])
         + (if events[|events| - 1].OnChunk? then [events[|events| - 1].text] else [])
  }

  /** The total length of the payloads passed to `onChunk`. */
  function TextLength(events: seq<Event>): nat
    decreases |events|
  {
    if events == [] then 0
    else TextLength(events[..|events| - 1])
         + (if events[|events| - 1].OnChunk? then |events[|events| - 1].text| else 0)
  }

  lemma {:induction false} TextsAppend(a: seq<Event>, b: seq<Event>)
    ensures Texts(a + b) == Texts(a) + Texts(b)
    ensures TextLength(a + b) == TextLength(a) + TextLength(b)
    decreases |b|
  {
    if b == [] {
      assert a + b == a;
    } else {
      TextsAppend(a, b[..|b| - 1]);
      assert (a + b)[..|a + b| - 1] == a + b[..|b| - 1];
      assert (a + b)[|a + b| - 1] == b[|b| - 1];
    }
  }

  /** Calls without an `onChunk` carry no text. */
  lemma {:induction false} TextsWithoutChunks(e: seq<Event>)
    requires forall i | 0 <= i < |e| :: !e[i].OnChunk?
    ensures Texts(e) == [] && TextLength(e) == 0
    decreases |e|
  {
    if e != [] {
      TextsWithoutChunks(e[..|e| - 1]);
    }
  }

  /** One `onChunk` followed by other calls carries exactly that text. */
  lemma ChunkThenOthers(c: string, rest: seq<Event>)
    requires forall i | 0 <= i < |rest| :: !rest[i].OnChunk?
    ensures Texts([OnChunk(c)] + rest) == [c] && TextLength([OnChunk(c)] + rest) == |c|
  {
    TextsWithoutChunks(rest);
    TextsAppend([OnChunk(c)], rest);
    var one: seq<Event> := [OnChunk(c)];
    assert one[..0] == [];
  }

  /** No payload reaching `onChunk` is blank or mentions the control marker. */
  ghost predicate TextIsClean(events: seq<Event>) {
    forall i | 0 <= i < |events| && events[i].OnChunk? ::
      !IsBlank(events[i].text) && !Contains(events[i].text, SourcesMarker)
  }

  /** Every speed report is computed from a set first-chunk time and a positive count. */
  ghost predicate SpeedIsGuarded(events: seq<Event>, start: int) {
    forall i | 0 <= i < |events| && events[i].OnSpeed? ::
      events[i].requestStart == start && events[i].firstChunkTime != 0 && events[i].charCount > 0
  }

  lemma GuardsAppend(a: seq<Event>, b: seq<Event>, start: int)
    requires TextIsClean(a) && TextIsClean(b) && SpeedIsGuarded(a, start) && SpeedIsGuarded(b, start)
    ensures TextIsClean(a + b) && SpeedIsGuarded(a + b, start)
  {
    var e := a + b;
    forall i | 0 <= i < |e| && e[i].OnChunk?
      ensures !IsBlank(e[i].text) && !Contains(e[i].text, SourcesMarker)
    {
      if i >= |a| { assert e[i] == b[i - |a|]; }
    }
    forall i | 0 <= i < |e| && e[i].OnSpeed?
      ensures e[i].requestStart == start && e[i].firstChunkTime != 0 && e[i].charCount > 0
    {
      if i >= |a| { assert e[i] == b[i - |a|]; }
    }
  }

  /** The invariant of the loop: what the bookkeeping and the calls so far satisfy. */
  ghost predicate StepInvariant(t: Tracker, p: Progress, start: int) {
    && p.tracker.charCount == t.charCount + TextLength(p.events)
    && TextIsClean(p.events)
    && SpeedIsGuarded(p.events, start)
    && OnComplete !in p.events
    && (!Unset(t.firstChunkTime) ==> p.tracker.firstChunkTime == t.firstChunkTime)
    && (Unset(t.firstChunkTime) && Texts(p.events) == [] ==> p.tracker.firstChunkTime == t.firstChunkTime)
    && (Texts(p.events) != [] ==> !Unset(p.tracker.firstChunkTime))
  }

  lemma StepLineInvariant(t: Tracker, line: string, now: int, start: int,
                          parse: string -> Option<ControlRecord>)
    requires now != 0
    ensures StepInvariant(t, StepLine(t, line, now, start, parse), start)
  {
    var p := StepLine(t, line, now, start, parse);
    if StartsWith(line, DataPrefix) {
      var data := line[|DataPrefix|..];
      if IsBlank(data) {
        TextsWithoutChunks([]);
      } else if Contains(data, SourcesMarker) {
        TextsWithoutChunks(ControlEvents(data, parse));
      } else {
        assert p.events == [OnChunk(data)] + p.events[1..];
        ChunkThenOthers(data, p.events[1..]);
      }
    } else {
      TextsWithoutChunks([]);
    }
  }

  lemma {:induction false} StepInvariantCompose(t: Tracker, p: Progress, q: Progress, start: int)
    requires StepInvariant(t, p, start) && StepInvariant(p.tracker, q, start)
    ensures StepInvariant(t, Progress(q.tracker, p.events + q.events), start)
  {
    TextsAppend(p.events, q.events);
    GuardsAppend(p.events, q.events, start);
  }

  lemma {:induction false} StepLinesInvariant(t: Tracker, lines: seq<string>, now: int, start: int,
                                              parse: string -> Option<ControlRecord>)
    requires now != 0
    ensures StepInvariant(t, StepLines(t, lines, now, start, parse), start)
    decreases |lines|
  {
    if lines != [] {
      var init := lines[..|lines| - 1];
      StepLinesInvariant(t, init, now, start, parse);
      var p := StepLines(t, init, now, start, parse);
      StepLineInvariant(p.tracker, lines[|lines| - 1], now, start, parse);
      StepInvariantCompose(t, p, StepLine(p.tracker, lines[|lines| - 1], now, start, parse), start);
    } else {
      TextsWithoutChunks([]);
    }
  }

  /** Every read's clock reading is a real (non-zero) time. */
  predicate ClockIsSet(received: seq<Read>) {
    forall i | 0 <= i < |received| :: received[i].at != 0
  }

  /**
   * Across any sequence of reads: `charCount` grows by exactly the length of
   * the payloads passed to `onChunk`; no such payload is blank or mentions
   * "__SOURCES__"; every speed report has a set first-chunk time and a positive
   * count; nothing completes mid-stream; and `firstChunkTime`, once set, never
   * changes, while it stays unset exactly as long as no text has arrived.
   */
  lemma {:induction false} StepReadsInvariant(t: Tracker, received: seq<Read>, start: int,
                                              parse: string -> Option<ControlRecord>)
    requires ClockIsSet(received)
    ensures StepInvariant(t, StepReads(t, received, start, parse), start)
    decreases |received|
  {
    if received != [] {
      var init := received[..|received| - 1];
      StepReadsInvariant(t, init, start, parse);
      var p := StepReads(t, init, start, parse);
      var r := received[|received| - 1];
      StepLinesInvariant(p.tracker, Split(r.text, '\n'), r.at, start, parse);
      StepInvariantCompose(t, p, StepLines(p.tracker, Split(r.text, '\n'), r.at, start, parse), start);
    } else {
      TextsWithoutChunks([]);
    }
  }

  /** The calls at the end of the body carry no text, and their speed report is guarded. */
  lemma FinalEventsShape(t: Tracker, start: int, end: StreamEnd)
    ensures var f := FinalEvents(t, start, end);
      && TextIsClean(f) && SpeedIsGuarded(f, start)
      && (forall i | 0 <= i < |f| :: !f[i].OnChunk?)
      && (end.EndOfStream? <==> OnComplete in f)
      && (end.EndOfStream? ==> f[|f| - 1] == OnComplete && OnComplete !in f[..|f| - 1])
  {
  }

  /** At the end of a stream `charCount` equals the total length of the text passed to `onChunk`. */
  lemma StreamCharCount(start: int, received: seq<Read>, parse: string -> Option<ControlRecord>)
    requires ClockIsSet(received)
    ensures var p := StepReads(Tracker(None, 0), received, start, parse);
      p.tracker.charCount == TextLength(p.events)
  {
    StepReadsInvariant(Tracker(None, 0), received, start, parse);
  }

  /**
   * For a whole stream: no control payload or blank payload reaches `onChunk`,
   * every speed report is guarded, and at end of stream `onComplete` is called
   * exactly once, as the last call (never on a read error).
   */
  lemma StreamProperties(start: int, received: seq<Read>, end: StreamEnd,
                         parse: string -> Option<ControlRecord>)
    requires ClockIsSet(received)
    ensures var e := StreamEvents(start, received, end, parse);
      TextIsClean(e) && SpeedIsGuarded(e, start)
    ensures var e := StreamEvents(start, received, end, parse);
      if end.EndOfStream? then e != [] && e[|e| - 1] == OnComplete && OnComplete !in e[..|e| - 1]
      else OnComplete !in e
  {
    StepReadsInvariant(Tracker(None, 0), received, start, parse);
    var p := StepReads(Tracker(None, 0), received, start, parse);
    var f := FinalEvents(p.tracker, start, end);
    FinalEventsShape(p.tracker, start, end);
    GuardsAppend(p.events, f, start);
    var e := p.events + f;
    if end.EndOfStream? {
      assert e[..|e| - 1] == p.events + f[..|f| - 1];
    }
  }

  /** `firstChunkTime` is set at the first text payload and never changes afterwards. */
  lemma FirstChunkTimeStable(t: Tracker, received: seq<Read>, start: int,
                             parse: string -> Option<ControlRecord>)
    requires ClockIsSet(received)
    ensures var p := StepReads(t, received, start, parse);
      && (!Unset(t.firstChunkTime) ==> p.tracker.firstChunkTime == t.firstChunkTime)
      && (Unset(t.firstChunkTime) ==> (Unset(p.tracker.firstChunkTime) <==> Texts(p.events) == []))
  {
    StepReadsInvariant(t, received, start, parse);
  }

  // ---------------------------------------------------------------------------
  // Round trip with the server's framing

  /** The server's framing of one chunk: "data: " + chunk + "\n\n". */
  function Frame(chunk: string): (r: string)
    ensures |r| == |DataPrefix| + |chunk| + 2
    ensures r[..|DataPrefix|] == DataPrefix && r[|DataPrefix|..|r| - 2] == chunk && r[|r| - 2..] == "\n\n"
  {
    DataPrefix + chunk + "\n\n"
  }

  /** Several chunks framed back to back. */
  function Encode(chunks: seq<string>): (r: string)
    ensures r == [] <==> chunks == []
  {
    if chunks == [] then "" else Frame(chunks[0]) + Encode(chunks[1..])
  }

  /** A chunk that the client forwards as text: one line, not blank, no control marker. */
  predicate IsTextChunk(c: string) {
    '\n' !in c && !IsBlank(c) && !Contains(c, SourcesMarker)
  }

  lemma {:induction false} StepLinesAppend(t: Tracker, a: seq<string>, b: seq<string>, now: int, start: int,
                                           parse: string -> Option<ControlRecord>)
    ensures var p := StepLines(t, a, now, start, parse);
            var q := StepLines(p.tracker, b, now, start, parse);
            StepLines(t, a + b, now, start, parse) == Progress(q.tracker, p.events + q.events)
    decreases |b|
  {
    var p := StepLines(t, a, now, start, parse);
    if b != [] {
      var front := b[..|b| - 1];
      var last := b[|b| - 1];
      StepLinesAppend(t, a, front, now, start, parse);
      var m := StepLines(p.tracker, front, now, start, parse);
      var l := StepLine(m.tracker, last, now, start, parse);
      assert StepLines(p.tracker, b, now, start, parse) == Progress(l.tracker, m.events + l.events);
      assert (a + b)[..|a + b| - 1] == a + front && (a + b)[|a + b| - 1] == last;
      assert StepLines(t, a + b, now, start, parse) == Progress(l.tracker, (p.events + m.events) + l.events);
      assert (p.events + m.events) + l.events == p.events + (m.events + l.events);
    } else {
      assert a + b == a;
      assert p.events + [] == p.events;
    }
  }

  /** Lines that do not start with "data: " cause no call and leave the bookkeeping alone. */
  lemma {:induction false} StepLinesWithoutData(t: Tracker, lines: seq<string>, now: int, start: int,
                                                parse: string -> Option<ControlRecord>)
    requires forall i | 0 <= i < |lines| :: !StartsWith(lines[i], DataPrefix)
    ensures StepLines(t, lines, now, start, parse) == Progress(t, [])
    decreases |lines|
  {
    if lines != [] {
      StepLinesWithoutData(t, lines[..|lines| - 1], now, start, parse);
    }
  }

  lemma FramedLines(c: string, rest: string)
    requires '\n' !in c
    ensures Split(Frame(c) + rest, '\n') == [DataPrefix + c, ""] + Split(rest, '\n')
  {
    assert '\n' !in DataPrefix + c by { assert '\n' !in DataPrefix; }
    assert Frame(c) + rest == (DataPrefix + c) + ['\n'] + ("" + ['\n'] + rest);
    SplitLine(DataPrefix + c, '\n', "" + ['\n'] + rest);
    SplitLine("", '\n', rest);
  }

  /** A data line with a text payload passes exactly that payload to `onChunk`. */
  lemma TextLine(t: Tracker, c: string, now: int, start: int,
                 parse: string -> Option<ControlRecord>)
    requires !IsBlank(c) && !Contains(c, SourcesMarker)
    ensures Texts(StepLine(t, DataPrefix + c, now, start, parse).events) == [c]
  {
    var l := DataPrefix + c;
    assert l[|DataPrefix|..] == c;
    assert StartsWith(l, DataPrefix);
    var e := StepLine(t, l, now, start, parse).events;
    assert e == [OnChunk(c)] + e[1..];
    ChunkThenOthers(c, e[1..]);
  }

  lemma TextFrameLines(t: Tracker, c: string, now: int, start: int,
                       parse: string -> Option<ControlRecord>)
    requires IsTextChunk(c)
    ensures Texts(StepLines(t, [DataPrefix + c, ""], now, start, parse).events) == [c]
  {
    var lines := [DataPrefix + c, ""];
    StepLinesSnoc(t, lines, 0, now, start, parse);
    StepLinesSnoc(t, lines, 1, now, start, parse);
    assert lines[..0] == [] && lines[..2] == lines;
    TextLine(t, c, now, start, parse);
    assert !StartsWith("", DataPrefix);
  }

  /**
   * Framing round trip: chunks framed as "data: c\n\n" and delivered in one read
   * reach `onChunk` exactly once each, unchanged and in order.
   */
  lemma {:induction false} EncodeRoundTrip(t: Tracker, chunks: seq<string>, now: int, start: int,
                                           parse: string -> Option<ControlRecord>)
    requires forall i | 0 <= i < |chunks| :: IsTextChunk(chunks[i])
    ensures Texts(StepLines(t, Split(Encode(chunks), '\n'), now, start, parse).events) == chunks
    decreases |chunks|
  {
    if chunks == [] {
      assert Split("", '\n') == [""];
      StepLinesWithoutData(t, [""], now, start, parse);
    } else {
      var p := StepLines(t, [DataPrefix + chunks[0], ""], now, start, parse);
      EncodeRoundTrip(p.tracker, chunks[1..], now, start, parse);
      EncodeStep(t, chunks, now, start, parse);
    }
  }

  /** One round-trip step: the first frame's chunk, then what the rest of the frames give. */
  lemma EncodeStep(t: Tracker, chunks: seq<string>, now: int, start: int,
                   parse: string -> Option<ControlRecord>)
    requires chunks != [] && IsTextChunk(chunks[0])
    requires var p := StepLines(t, [DataPrefix + chunks[0], ""], now, start, parse);
      Texts(StepLines(p.tracker, Split(Encode(chunks[1..]), '\n'), now, start, parse).events) == chunks[1..]
    ensures Texts(StepLines(t, Split(Encode(chunks), '\n'), now, start, parse).events) == chunks
  {
    var c := chunks[0];
    var head := [DataPrefix + c, ""];
    var tail := Split(Encode(chunks[1..]), '\n');
    EncodeSplit(chunks);
    StepLinesAppend(t, head, tail, now, start, parse);
    var p := StepLines(t, head, now, start, parse);
    var q := StepLines(p.tracker, tail, now, start, parse);
    TextFrameLines(t, c, now, start, parse);
    TextsAppend(p.events, q.events);
    assert [c] + chunks[1..] == chunks;
  }

  /** The lines of framed chunks: the first frame's data line and blank line, then the rest. */
  lemma EncodeSplit(chunks: seq<string>)
    requires chunks != [] && '\n' !in chunks[0]
    ensures Split(Encode(chunks), '\n') == [DataPrefix + chunks[0], ""] + Split(Encode(chunks[1..]), '\n')
  {
    assert Encode(chunks) == Frame(chunks[0]) + Encode(chunks[1..]);
    FramedLines(chunks[0], Encode(chunks[1..]));
  }

  /** A stream of one read is that read's lines. */
  lemma OneRead(t: Tracker, r: Read, start: int, parse: string -> Option<ControlRecord>)
    ensures StepReads(t, [r], start, parse) == StepLines(t, Split(r.text, '\n'), r.at, start, parse)
  {
    StepReadsSnoc(t, [r], 0, start, parse);
    assert [r][..0] == [] && [r][..1] == [r];
  }

  /** The text of a whole stream is the text of its reads: the closing calls carry none. */
  lemma StreamTexts(start: int, received: seq<Read>, end: StreamEnd,
                    parse: string -> Option<ControlRecord>)
    ensures Texts(StreamEvents(start, received, end, parse))
         == Texts(StepReads(Tracker(None, 0), received, start, parse).events)
  {
    var p := StepReads(Tracker(None, 0), received, start, parse);
    var f := FinalEvents(p.tracker, start, end);
    FinalEventsShape(p.tracker, start, end);
    TextsWithoutChunks(f);
    TextsAppend(p.events, f);
  }

  /** The whole-stream form: one read holding the framed chunks, then end of stream. */
  lemma StreamRoundTrip(chunks: seq<string>, at: int, endAt: int, start: int,
                        parse: string -> Option<ControlRecord>)
    requires forall i | 0 <= i < |chunks| :: IsTextChunk(chunks[i])
    ensures Texts(StreamEvents(start, [Read(Encode(chunks), at)], EndOfStream(endAt), parse)) == chunks
  {
    ReadRoundTrip(chunks, at, start, parse);
    StreamTexts(start, [Read(Encode(chunks), at)], EndOfStream(endAt), parse);
  }

  /** Framed chunks delivered in one read give back exactly those chunks. */
  lemma ReadRoundTrip(chunks: seq<string>, at: int, start: int, parse: string -> Option<ControlRecord>)
    requires forall i | 0 <= i < |chunks| :: IsTextChunk(chunks[i])
    ensures Texts(StepReads(Tracker(None, 0), [Read(Encode(chunks), at)], start, parse).events) == chunks
  {
    OneRead(Tracker(None, 0), Read(Encode(chunks), at), start, parse);
    EncodeRoundTrip(Tracker(None, 0), chunks, at, start, parse);
  }

  /** A read of one line is that line. */
  lemma OneLine(t: Tracker, l: string, now: int, start: int, parse: string -> Option<ControlRecord>)
    ensures StepLines(t, [l], now, start, parse) == StepLine(t, l, now, start, parse)
  {
    StepLinesSnoc(t, [l], 0, now, start, parse);
    assert [l][..0] == [] && [l][..1] == [l];
  }

  lemma HeadOfSplitFrame(c: string, at: int, start: int, parse: string -> Option<ControlRecord>)
    requires IsTextChunk(c)
    ensures Texts(StepReads(Tracker(None, 0), [Read(DataPrefix + c, at)], start, parse).events) == [c]
  {
    var t0 := Tracker(None, 0);
    var l := DataPrefix + c;
    OneRead(t0, Read(l, at), start, parse);
    assert Split(l, '\n') == [l] by {
      assert '\n' !in l by { assert '\n' !in DataPrefix; }
      SplitNoSep(l, '\n');
    }
    OneLine(t0, l, at, start, parse);
    TextLine(t0, c, at, start, parse);
  }

  lemma TailOfSplitFrame(t: Tracker, rest: string, at: int, start: int,
                         parse: string -> Option<ControlRecord>)
    requires '\n' !in rest && !StartsWith(rest, DataPrefix)
    ensures StepLines(t, Split(rest + "\n\n", '\n'), at, start, parse) == Progress(t, [])
  {
    assert rest + "\n\n" == rest + ['\n'] + ("" + ['\n'] + "");
    SplitLine(rest, '\n', "" + ['\n'] + "");
    SplitLine("", '\n', "");
    var second := [rest, "", ""];
    assert Split(rest + "\n\n", '\n') == second;
    assert !StartsWith("", DataPrefix);
    StepLinesWithoutData(t, second, at, start, parse);
  }

  /**
   * A frame whose line is split across two reads is truncated: the rest of the
   * line is not prefixed by "data: " in the second read, so it is dropped and
   * only the part in the first read reaches `onChunk`.
   */
  lemma SplitFrameIsTruncated(c: string, rest: string, at1: int, at2: int, start: int,
                              parse: string -> Option<ControlRecord>)
    requires IsTextChunk(c) && '\n' !in rest && !StartsWith(rest, DataPrefix)
    ensures Texts(StepReads(Tracker(None, 0), [Read(DataPrefix + c, at1), Read(rest + "\n\n", at2)], start, parse).events) == [c]
  {
    var received := [Read(DataPrefix + c, at1), Read(rest + "\n\n", at2)];
    var t0 := Tracker(None, 0);
    StepReadsSnoc(t0, received, 1, start, parse);
    assert received[..1] == [Read(DataPrefix + c, at1)] && received[..2] == received;
    HeadOfSplitFrame(c, at1, start, parse);
    var p := StepReads(t0, received[..1], start, parse);
    TailOfSplitFrame(p.tracker, rest, at2, start, parse);
    TextsAppend(p.events, []);
    assert p.events + [] == p.events;
  }

  /** A control frame reaches `onSources` with the parsed scores and never `onChunk`. */
  lemma ControlFrame(t: Tracker, json: string, rec: ControlRecord, now: int, start: int,
                     parse: string -> Option<ControlRecord>)
    requires forall i | 0 <= i < |json| :: json[i] !in "\n\r\U{2028}\U{2029}"
    requires parse(json) == Some(rec)
    ensures StepLine(t, DataPrefix + SourcesTag + json, now, start, parse)
         == Progress(t, [OnSources(rec.source_scores.GetOr([]), rec.quality_score.GetOr(0.0))])
  {
    var data := SourcesTag + json;
    assert (DataPrefix + data)[|DataPrefix|..] == data;
    assert DataPrefix + SourcesTag + json == DataPrefix + data;
    assert StartsWith(data, SourcesMarker);
    assert !IsBlank(data) by { assert !IsJsSpace(data[0]); }
    assert data[|SourcesTag|..] == json;
    UntilLineEndAll(json);
  }

  lemma {:induction false} UntilLineEndAll(s: string)
    requires forall i | 0 <= i < |s| :: s[i] !in "\n\r\U{2028}\U{2029}"
    ensures UntilLineEnd(s) == s
    decreases |s|
  {
    if s != [] {
      UntilLineEndAll(s[1..]);
    }
  }
}
