/**
 * The background consumers of a model stream. Each one carries the unterminated rest between chunks, picks one
 * JSON event out of every frame and folds it into what it will report.
 */
module SseTaps {
  import opened JsText
  import opened JsValue
  import opened SseFrames
  import opened SseLines
  import opened TextLines

  type Usage = map<string, Json>

  /** The event of a frame; None when there is none, it does not parse, or it is null (whose `type` throws). */
  function EventOf(js: Js, frame: Text, skipDone: bool): Option<Json> {
    var data := LastData(Lines(frame));
    if data == [] || (skipDone && data == DONE) then None
    else
      var evt := js.parse(data);
      if evt.None? || evt.value.Null? then None else evt
  }

  function EventsOf(js: Js, frames: seq<Text>, skipDone: bool): seq<Json> {
    if frames == [] then []
    else
      var front := EventsOf(js, frames[..|frames| - 1], skipDone);
      var evt := EventOf(js, frames[|frames| - 1], skipDone);
      if evt.None? then front else front + [evt.value]
  }

  // ---- Which event a frame says ----

  /** The frame's data is no event: empty, the end marker where that is skipped, no JSON, or null. */
  predicate NoEvent(js: Js, data: Text, skipDone: bool) {
    data == [] || (skipDone && data == DONE) || js.parse(data).None? || js.parse(data) == Some(Null)
  }

  /** What a frame says to a tap, by its lines. */
  ghost predicate Tells(js: Js, frame: Text, evt: Option<Json>, skipDone: bool) {
    match evt
    case None => DatalessFrame(frame) || exists data :: DataFrame(frame, data) && NoEvent(js, data, skipDone)
    case Some(e) => exists data :: DataFrame(frame, data) && !NoEvent(js, data, skipDone) && js.parse(data) == Some(e)
  }

  /** A frame that carries an event gives exactly that event, and any other gives none. */
  lemma EventOfFrame(js: Js, frame: Text, evt: Option<Json>, skipDone: bool)
    requires Tells(js, frame, evt, skipDone)
    ensures EventOf(js, frame, skipDone) == evt
  {
    if DatalessFrame(frame) {
      NoDataOfFrame(frame);
    }
    if evt.Some? {
      var data :| DataFrame(frame, data) && !NoEvent(js, data, skipDone) && js.parse(data) == Some(evt.value);
      DataOfFrame(frame, data);
    } else if !DatalessFrame(frame) {
      var data :| DataFrame(frame, data) && NoEvent(js, data, skipDone);
      DataOfFrame(frame, data);
    }
  }

  lemma DataIsTold(js: Js, frame: Text, data: Text, skipDone: bool)
    requires DataFrame(frame, data)
    ensures Tells(js, frame, if NoEvent(js, data, skipDone) then None else js.parse(data), skipDone)
  {
  }

  lemma DataIsEvent(js: Js, frame: Text, data: Text, skipDone: bool)
    requires LastData(Lines(frame)) == data
    ensures EventOf(js, frame, skipDone) == if NoEvent(js, data, skipDone) then None else js.parse(data)
  {
  }

  lemma EventIsTold(js: Js, frame: Text, skipDone: bool)
    ensures Tells(js, frame, EventOf(js, frame, skipDone), skipDone)
  {
    EveryFrameHasData(frame);
    if DatalessFrame(frame) {
      NoDataOfFrame(frame);
      DataIsEvent(js, frame, [], skipDone);
    } else {
      var data :| DataFrame(frame, data);
      DataOfFrame(frame, data);
      DataIsTold(js, frame, data, skipDone);
      DataIsEvent(js, frame, data, skipDone);
    }
  }

  /** Every frame says what is read from it, and nothing else. */
  lemma EveryFrameTells(js: Js, frame: Text, evt: Option<Json>, skipDone: bool)
    ensures Tells(js, frame, evt, skipDone) <==> EventOf(js, frame, skipDone) == evt
  {
    EventIsTold(js, frame, skipDone);
    if Tells(js, frame, evt, skipDone) {
      EventOfFrame(js, frame, evt, skipDone);
    }
  }

  /** What the frames of a stream say, frame by frame. */
  ghost predicate AllTell(js: Js, frames: seq<Text>, told: seq<Option<Json>>, skipDone: bool) {
    |told| == |frames| && forall i :: 0 <= i < |frames| ==> Tells(js, frames[i], told[i], skipDone)
  }

  lemma {:induction false} EventsOfFrames(js: Js, frames: seq<Text>, told: seq<Option<Json>>, skipDone: bool)
    requires AllTell(js, frames, told, skipDone)
    ensures EventsOf(js, frames, skipDone) == Present(told)
  {
    if frames != [] {
      var n := |frames| - 1;
      EventsOfFrames(js, frames[..n], told[..n], skipDone);
      EventOfFrame(js, frames[n], told[n], skipDone);
    }
  }

  /** A stream of these frames, each followed by a blank line, and an unterminated rest, in some chunks. */
  ghost predicate Streams(chunks: seq<Text>, frames: seq<Text>, rest: Text) {
    && (forall f | f in frames :: WellFramed(f)) && BreakFree(rest)
    && Concat(chunks) == Unframe(frames) + rest
  }

  lemma EventsOfStream(js: Js, chunks: seq<Text>, frames: seq<Text>, rest: Text, told: seq<Option<Json>>,
                       skipDone: bool)
    requires Streams(chunks, frames, rest) && AllTell(js, frames, told, skipDone)
    ensures EventsOf(js, Frames(Concat(chunks)), skipDone) == Present(told)
  {
    FramesUnique(frames, rest);
    EventsOfFrames(js, frames, told, skipDone);
  }

  /** if (x) Object.assign(usage, x) */
  function MergeUsage(js: Js, usage: Usage, x: Option<Json>): Usage {
    if Truthy(x) then Assign(js, usage, x.value) else usage
  }

  // ---- The main Anthropic tap ----

  datatype ToolAcc = ToolAcc(id: Json, name: Json, inputJson: Text)

  datatype AnthropicState = AnthropicState(
    usage: Usage, outputText: Text, toolUseCount: nat, toolUse: map<JsNumber, ToolAcc>)

  function AppendJson(st: AnthropicState, idx: Option<Json>, part: Text): AnthropicState {
    if idx.Some? && idx.value.Num? && idx.value.n in st.toolUse then
      var acc := st.toolUse[idx.value.n];
      st.(toolUse := st.toolUse[idx.value.n := acc.(inputJson := acc.inputJson + part)])
    else st
  }

  function OpenTool(st: AnthropicState, idx: Option<Json>, block: Json): AnthropicState {
    var name := Coalesce(Get(block, "name"), Some(Str([]))).value;
    if Truthy(Some(name)) && idx.Some? && idx.value.Num? then
      var id := Coalesce(Get(block, "id"), Some(Str([]))).value;
      st.(toolUse := st.toolUse[idx.value.n := ToolAcc(id, name, [])])
    else st
  }

  function AnthropicEvent(js: Js, st: AnthropicState, evt: Json): AnthropicState {
    var kind := Get(evt, "type");
    if IsText(kind, "message_start") then
      st.(usage := MergeUsage(js, st.usage, GetOpt(Get(evt, "message"), "usage")))
    else if IsText(kind, "message_delta") then
      st.(usage := MergeUsage(js, st.usage, Get(evt, "usage")))
    else if IsText(kind, "content_block_delta") then
      var delta := Get(evt, "delta");
      var deltaType, text, part := GetOpt(delta, "type"), GetOpt(delta, "text"), GetOpt(delta, "partial_json");
      if IsText(deltaType, "text_delta") && text.Some? && text.value.Str? then
        st.(outputText := st.outputText + text.value.s)
      else if IsText(deltaType, "input_json_delta") && part.Some? && part.value.Str? then
        AppendJson(st, Get(evt, "index"), part.value.s)
      else st
    else if IsText(kind, "content_block_start") then
      var block := Get(evt, "content_block");
      if IsText(GetOpt(block, "type"), "tool_use") then
        OpenTool(st.(toolUseCount := st.toolUseCount + 1), Get(evt, "index"), block.value)
      else st
    else st
  }

  const NO_ANTHROPIC: AnthropicState := AnthropicState(map[], [], 0, map[])

  function AnthropicStep(js: Js): (AnthropicState, Text) -> AnthropicState {
    (st: AnthropicState, frame: Text) =>
      var evt := EventOf(js, frame, true);
      if evt.None? then st else AnthropicEvent(js, st, evt.value)
  }

  /** What the drain after the loop finds in an unterminated tail: the usage of a message_delta. */
  function TailUsage(js: Js, rest: Text): Option<Json> {
    var line := LastDataLine(Lines(rest));
    if IsBlank(rest) || line == [] || line[6..] == [] || line[6..] == DONE then None
    else
      var evt := js.parse(line[6..]);
      if evt.None? || evt.value.Null? || !IsText(Get(evt.value, "type"), "message_delta") then None
      else if Truthy(Get(evt.value, "usage")) then Get(evt.value, "usage") else None
  }

  function Drain(js: Js, st: AnthropicState, rest: Text): AnthropicState {
    st.(usage := MergeUsage(js, st.usage, TailUsage(js, rest)))
  }

  /** What the main tap has collected when the stream has ended. */
  function AnthropicTotal(js: Js, text: Text): AnthropicState {
    Drain(js, FoldFrames(AnthropicStep(js), NO_ANTHROPIC, Frames(text)), Rest(text))
  }

  class AnthropicTap {
    const js: Js
    var sseBuf: Text
    var usage: Usage
    var outputText: Text
    var toolUseCount: nat
    var toolUseAcc: map<JsNumber, ToolAcc>
    var streamCompleted: bool
    var reports: seq<AnthropicState>
    ghost var received: Text

    function State(): AnthropicState
      reads this
    {
      AnthropicState(usage, outputText, toolUseCount, toolUseAcc)
    }

    /** The tap reports at most once, and has reported exactly when it is completed. */
    ghost predicate Latched()
      reads this
    {
      |reports| == if streamCompleted then 1 else 0
    }

    ghost predicate Valid()
      reads this
    {
      && Latched()
      && sseBuf == Rest(received)
      && State() == FoldFrames(AnthropicStep(js), NO_ANTHROPIC, Frames(received))
    }

    constructor (js: Js)
      ensures Valid() && this.js == js && received == [] && !streamCompleted
    {
      this.js := js;
      sseBuf, usage, outputText, toolUseCount, toolUseAcc := [], map[], [], 0, map[];
      streamCompleted, reports, received := false, [], [];
      assert FirstBreak([]) == -1;
    }

    method ProcessEvent(evt: Json)
      modifies this`usage, this`outputText, this`toolUseCount, this`toolUseAcc
      ensures State() == AnthropicEvent(js, old(State()), evt)
    {
      var kind := Get(evt, "type");
      if IsText(kind, "message_start") {
        var u := GetOpt(Get(evt, "message"), "usage");
        if Truthy(u) {
          usage := Assign(js, usage, u.value);
        }
      } else if IsText(kind, "message_delta") {
        if Truthy(Get(evt, "usage")) {
          usage := Assign(js, usage, Get(evt, "usage").value);
        }
      } else if IsText(kind, "content_block_delta") {
        var delta := Get(evt, "delta");
        var text, part := GetOpt(delta, "text"), GetOpt(delta, "partial_json");
        if IsText(GetOpt(delta, "type"), "text_delta") && text.Some? && text.value.Str? {
          outputText := outputText + text.value.s;
        } else if IsText(GetOpt(delta, "type"), "input_json_delta") && part.Some? && part.value.Str? {
          var idx := Get(evt, "index");
          if idx.Some? && idx.value.Num? && idx.value.n in toolUseAcc {
            var acc := toolUseAcc[idx.value.n];
            toolUseAcc := toolUseAcc[idx.value.n := acc.(inputJson := acc.inputJson + part.value.s)];
          }
        }
      } else if IsText(kind, "content_block_start") {
        var block := Get(evt, "content_block");
        if IsText(GetOpt(block, "type"), "tool_use") {
          toolUseCount := toolUseCount + 1;
          var name := Coalesce(Get(block.value, "name"), Some(Str([]))).value;
          var idx := Get(evt, "index");
          if Truthy(Some(name)) && idx.Some? && idx.value.Num? {
            var id := Coalesce(Get(block.value, "id"), Some(Str([]))).value;
            toolUseAcc := toolUseAcc[idx.value.n := ToolAcc(id, name, [])];
          }
        }
      }
    }

    method ProcessFrame(frame: Text)
      modifies this`usage, this`outputText, this`toolUseCount, this`toolUseAcc
      ensures State() == AnthropicStep(js)(old(State()), frame)
    {
      var data := FindLastData(Lines(frame));
      if data != [] && data != DONE {
        var evt := js.parse(data);
        if evt.Some? && !evt.value.Null? {
          ProcessEvent(evt.value);
        }
      }
    }

    /** After any chunks the collected state is the one the received text determines. */
    method Read(chunk: Text)
      requires Valid()
      modifies this`sseBuf, this`usage, this`outputText, this`toolUseCount, this`toolUseAcc, this`received
      ensures Valid() && received == old(received) + chunk
    {
      ghost var before := State();
      sseBuf := sseBuf + chunk;
      var parts := Frames(sseBuf);
      sseBuf := Rest(sseBuf);
      for i := 0 to |parts|
        invariant sseBuf == Rest(old(sseBuf) + chunk) && received == old(received)
        invariant State() == FoldFrames(AnthropicStep(js), before, parts[..i])
      {
        assert parts[..i + 1][..i] == parts[..i];
        ProcessFrame(parts[i]);
      }
      assert parts[..|parts|] == parts;
      FeedWhole(AnthropicStep(js), NO_ANTHROPIC, received, chunk);
      received := received + chunk;
    }

    /** The timeout and the end of the stream both come here; the first one reports. */
    method CompleteStream()
      requires Latched()
      modifies this`streamCompleted, this`reports
      ensures Latched() && streamCompleted
      ensures reports == if old(streamCompleted) then old(reports) else [State()]
    {
      if streamCompleted {
        return;
      }
      streamCompleted := true;
      reports := reports + [State()];
    }

    /** The end of the stream: drain the tail and report, unless the timeout has. */
    method Finish()
      requires Valid()
      modifies this`usage, this`streamCompleted, this`reports
      ensures streamCompleted && |reports| == 1
      ensures State() == AnthropicTotal(js, received)
      ensures reports == if old(streamCompleted) then old(reports) else [AnthropicTotal(js, received)]
    {
      var u := TailUsage(js, sseBuf);
      if Truthy(u) {
        usage := Assign(js, usage, u.value);
      }
      CompleteStream();
    }
  }

  // ---- The direct Anthropic tap ----

  datatype DirectState = DirectState(usage: Usage, outputText: Text)

  function DirectEvent(js: Js, st: DirectState, evt: Json): DirectState {
    var kind := Get(evt, "type");
    if IsText(kind, "message_start") then
      st.(usage := MergeUsage(js, st.usage, GetOpt(Get(evt, "message"), "usage")))
    else if IsText(kind, "message_delta") then
      st.(usage := MergeUsage(js, st.usage, Get(evt, "usage")))
    else if IsText(kind, "content_block_delta") then
      var delta := Get(evt, "delta");
      var text := GetOpt(delta, "text");
      if IsText(GetOpt(delta, "type"), "text_delta") && text.Some? && text.value.Str? then
        st.(outputText := st.outputText + text.value.s)
      else st
    else st
  }

  const NO_DIRECT: DirectState := DirectState(map[], [])

  function DirectStep(js: Js): (DirectState, Text) -> DirectState {
    (st: DirectState, frame: Text) =>
      var evt := EventOf(js, frame, true);
      if evt.None? then st else DirectEvent(js, st, evt.value)
  }

  class DirectTap {
    const js: Js
    var sseBuf: Text
    var usage: Usage
    var outputText: Text
    ghost var received: Text

    ghost predicate Valid()
      reads this
    {
      && sseBuf == Rest(received)
      && DirectState(usage, outputText) == FoldFrames(DirectStep(js), NO_DIRECT, Frames(received))
    }

    constructor (js: Js)
      ensures Valid() && this.js == js && received == []
    {
      this.js := js;
      sseBuf, usage, outputText, received := [], map[], [], [];
      assert FirstBreak([]) == -1;
    }

    method ProcessFrame(frame: Text)
      modifies this`usage, this`outputText
      ensures DirectState(usage, outputText) == DirectStep(js)(old(DirectState(usage, outputText)), frame)
    {
      var data := FindLastData(Lines(frame));
      if data == [] || data == DONE {
        return;
      }
      var parsed := js.parse(data);
      if parsed.None? || parsed.value.Null? {
        return;
      }
      var evt := parsed.value;
      var kind := Get(evt, "type");
      if IsText(kind, "message_start") {
        var u := GetOpt(Get(evt, "message"), "usage");
        if Truthy(u) {
          usage := Assign(js, usage, u.value);
        }
      } else if IsText(kind, "message_delta") {
        if Truthy(Get(evt, "usage")) {
          usage := Assign(js, usage, Get(evt, "usage").value);
        }
      } else if IsText(kind, "content_block_delta") {
        var text := GetOpt(Get(evt, "delta"), "text");
        if IsText(GetOpt(Get(evt, "delta"), "type"), "text_delta") && text.Some? && text.value.Str? {
          outputText := outputText + text.value.s;
        }
      }
    }

    method Read(chunk: Text)
      requires Valid()
      modifies this
      ensures Valid() && received == old(received) + chunk
    {
      ghost var before := DirectState(usage, outputText);
      sseBuf := sseBuf + chunk;
      var parts := Frames(sseBuf);
      sseBuf := Rest(sseBuf);
      for i := 0 to |parts|
        invariant sseBuf == Rest(old(sseBuf) + chunk) && received == old(received)
        invariant DirectState(usage, outputText) == FoldFrames(DirectStep(js), before, parts[..i])
      {
        assert parts[..i + 1][..i] == parts[..i];
        ProcessFrame(parts[i]);
      }
      assert parts[..|parts|] == parts;
      FeedWhole(DirectStep(js), NO_DIRECT, received, chunk);
      received := received + chunk;
    }
  }

  // ---- The Codex tap ----

  datatype CodexState = CodexState(usage: Usage, outputText: Text, toolUseCount: nat, stopReason: Option<Json>)

  /** `incomplete:${reason ?? "unknown"}`; None when the conversion throws. */
  function IncompleteReason(js: Js, resp: Option<Json>): Option<Text> {
    var reason := Coalesce(GetOpt(GetOpt(resp, "incomplete_details"), "reason"), Some(Str(Lit("unknown")))).value;
    var text := if reason.Str? then Some(reason.s) else js.toText(reason);
    if text.None? then None else Some(Lit("incomplete:") + text.value)
  }

  function CodexEvent(js: Js, st: CodexState, evt: Json): CodexState {
    var kind := Get(evt, "type");
    if IsText(kind, "response.output_text.delta") then
      var delta := Get(evt, "delta");
      if delta.Some? && delta.value.Str? then st.(outputText := st.outputText + delta.value.s) else st
    else if IsText(kind, "response.output_item.added") then
      if IsText(GetOpt(Get(evt, "item"), "type"), "function_call") then st.(toolUseCount := st.toolUseCount + 1)
      else st
    else if IsText(kind, "response.completed") then
      var resp := Get(evt, "response");
      st.(usage := MergeUsage(js, st.usage, GetOpt(resp, "usage")),
          stopReason := Coalesce(GetOpt(resp, "status"), Some(Str(Lit("completed")))))
    else if IsText(kind, "response.incomplete") then
      var resp := Get(evt, "response");
      var reason := IncompleteReason(js, resp);
      if reason.None? then st
      else st.(usage := MergeUsage(js, st.usage, GetOpt(resp, "usage")), stopReason := Some(Str(reason.value)))
    else st
  }

  const NO_CODEX: CodexState := CodexState(map[], [], 0, None)

  function CodexStep(js: Js): (CodexState, Text) -> CodexState {
    (st: CodexState, frame: Text) =>
      var evt := EventOf(js, frame, false);
      if evt.None? then st else CodexEvent(js, st, evt.value)
  }

  class CodexTap {
    const js: Js
    var sseBuf: Text
    var usage: Usage
    var outputText: Text
    var toolUseCount: nat
    var stopReason: Option<Json>
    ghost var received: Text

    function State(): CodexState
      reads this
    {
      CodexState(usage, outputText, toolUseCount, stopReason)
    }

    ghost predicate Valid()
      reads this
    {
      && sseBuf == Rest(received)
      && State() == FoldFrames(CodexStep(js), NO_CODEX, Frames(received))
    }

    constructor (js: Js)
      ensures Valid() && this.js == js && received == []
    {
      this.js := js;
      sseBuf, usage, outputText, toolUseCount, stopReason, received := [], map[], [], 0, None, [];
      assert FirstBreak([]) == -1;
    }

    method ProcessEvent(evt: Json)
      modifies this`usage, this`outputText, this`toolUseCount, this`stopReason
      ensures State() == CodexEvent(js, old(State()), evt)
    {
      var kind := Get(evt, "type");
      if IsText(kind, "response.output_text.delta") {
        var delta := Get(evt, "delta");
        if delta.Some? && delta.value.Str? {
          outputText := outputText + delta.value.s;
        }
      } else if IsText(kind, "response.output_item.added") {
        if IsText(GetOpt(Get(evt, "item"), "type"), "function_call") {
          toolUseCount := toolUseCount + 1;
        }
      } else if IsText(kind, "response.completed") {
        var resp := Get(evt, "response");
        if Truthy(GetOpt(resp, "usage")) {
          usage := Assign(js, usage, GetOpt(resp, "usage").value);
        }
        stopReason := Coalesce(GetOpt(resp, "status"), Some(Str(Lit("completed"))));
      } else if IsText(kind, "response.incomplete") {
        var resp := Get(evt, "response");
        var reason := IncompleteReason(js, resp);
        if reason.Some? {
          stopReason := Some(Str(reason.value));
          if Truthy(GetOpt(resp, "usage")) {
            usage := Assign(js, usage, GetOpt(resp, "usage").value);
          }
        }
      }
    }

    method ProcessFrame(frame: Text)
      modifies this`usage, this`outputText, this`toolUseCount, this`stopReason
      ensures State() == CodexStep(js)(old(State()), frame)
    {
      var data := FindLastData(Lines(frame));
      if data != [] {
        var evt := js.parse(data);
        if evt.Some? && !evt.value.Null? {
          ProcessEvent(evt.value);
        }
      }
    }

    method Read(chunk: Text)
      requires Valid()
      modifies this
      ensures Valid() && received == old(received) + chunk
    {
      ghost var before := State();
      sseBuf := sseBuf + chunk;
      var parts := Frames(sseBuf);
      sseBuf := Rest(sseBuf);
      for i := 0 to |parts|
        invariant sseBuf == Rest(old(sseBuf) + chunk) && received == old(received)
        invariant State() == FoldFrames(CodexStep(js), before, parts[..i])
      {
        assert parts[..i + 1][..i] == parts[..i];
        ProcessFrame(parts[i]);
      }
      assert parts[..|parts|] == parts;
      FeedWhole(CodexStep(js), NO_CODEX, received, chunk);
      received := received + chunk;
    }
  }

  // ---- Chunk boundaries do not matter ----

  /** Two ways of cutting the same text give every tap the same state and the same carried rest. */
  lemma TapsIgnoreChunking(js: Js, chunks: seq<Text>, chunks': seq<Text>)
    requires Concat(chunks) == Concat(chunks')
    ensures FeedChunks(AnthropicStep(js), NO_ANTHROPIC, chunks) == FeedChunks(AnthropicStep(js), NO_ANTHROPIC, chunks')
    ensures FeedChunks(DirectStep(js), NO_DIRECT, chunks) == FeedChunks(DirectStep(js), NO_DIRECT, chunks')
    ensures FeedChunks(CodexStep(js), NO_CODEX, chunks) == FeedChunks(CodexStep(js), NO_CODEX, chunks')
  {
    ChunkingIrrelevant(AnthropicStep(js), NO_ANTHROPIC, chunks);
    ChunkingIrrelevant(AnthropicStep(js), NO_ANTHROPIC, chunks');
    ChunkingIrrelevant(DirectStep(js), NO_DIRECT, chunks);
    ChunkingIrrelevant(DirectStep(js), NO_DIRECT, chunks');
    ChunkingIrrelevant(CodexStep(js), NO_CODEX, chunks);
    ChunkingIrrelevant(CodexStep(js), NO_CODEX, chunks');
  }

  // ---- The two Anthropic taps agree ----

  lemma EventsAgree(js: Js, st: AnthropicState, evt: Json)
    ensures var st' := AnthropicEvent(js, st, evt);
            DirectEvent(js, DirectState(st.usage, st.outputText), evt) == DirectState(st'.usage, st'.outputText)
  {
  }

  lemma StepsAgree(js: Js, st: AnthropicState, frame: Text)
    ensures var st' := AnthropicStep(js)(st, frame);
            DirectStep(js)(DirectState(st.usage, st.outputText), frame) == DirectState(st'.usage, st'.outputText)
  {
    var evt := EventOf(js, frame, true);
    if evt.Some? {
      EventsAgree(js, st, evt.value);
    }
  }

  lemma {:induction false} FoldsAgree(js: Js, frames: seq<Text>)
    ensures var main := FoldFrames(AnthropicStep(js), NO_ANTHROPIC, frames);
            FoldFrames(DirectStep(js), NO_DIRECT, frames) == DirectState(main.usage, main.outputText)
  {
    if frames != [] {
      var front := frames[..|frames| - 1];
      FoldsAgree(js, front);
      StepsAgree(js, FoldFrames(AnthropicStep(js), NO_ANTHROPIC, front), frames[|frames| - 1]);
    }
  }

  /** Every property of the value is already there with that value. */
  ghost predicate AlreadyThere(js: Js, usage: Usage, x: Json) {
    forall k | k in Props(js, x) :: k in usage && usage[k] == Props(js, x)[k]
  }

  lemma AssignChangesNothingIff(js: Js, usage: Usage, x: Json)
    ensures Assign(js, usage, x) == usage <==> AlreadyThere(js, usage, x)
  {
    if Assign(js, usage, x) == usage {
      forall k | k in Props(js, x)
        ensures k in usage && usage[k] == Props(js, x)[k]
      {
        assert Assign(js, usage, x)[k] == Props(js, x)[k];
      }
    }
  }

  /**
   * The taps agree on the output text of every stream. They agree on its usage exactly when the unterminated tail
   * holds no message_delta usage for the main tap's drain, or only counts the stream has already reported.
   */
  lemma TapsAgree(js: Js, text: Text)
    ensures var main, direct := AnthropicTotal(js, text), FoldFrames(DirectStep(js), NO_DIRECT, Frames(text));
            && main.outputText == direct.outputText
            && (main.usage == direct.usage
                <==> TailUsage(js, Rest(text)).None? || AlreadyThere(js, direct.usage, TailUsage(js, Rest(text)).value))
            && (IsBlank(Rest(text)) ==> main.usage == direct.usage)
  {
    FoldsAgree(js, Frames(text));
    if TailUsage(js, Rest(text)).Some? {
      AssignChangesNothingIff(js, FoldFrames(DirectStep(js), NO_DIRECT, Frames(text)).usage,
                              TailUsage(js, Rest(text)).value);
    }
  }

  /** A message_delta whose usage has a property k. */
  predicate DeltaReports(evt: Json, k: string) {
    var usage := Get(evt, "usage");
    IsText(Get(evt, "type"), "message_delta") && usage.Some? && usage.value.Obj? && k in usage.value.fields
  }

  lemma UnterminatedTail(js: Js, data: Text, evt: Json, k: string)
    requires NEWLINE !in data && data != [] && data != DONE
    requires js.parse(data) == Some(evt) && DeltaReports(evt, k)
    ensures TailUsage(js, DATA_SPACE + data) == Get(evt, "usage")
  {
    var tail := DATA_SPACE + data;
    LinesOne(tail);
    assert LastDataLine([tail]) == tail;
    assert tail[0] == 100 && tail[0] in tail;
    assert tail[6..] == data;
  }

  /** A stream whose last frame is not terminated and reports a new count: only the main tap has it. */
  lemma TapsDiffer(js: Js, frames: seq<Text>, data: Text, evt: Json, k: string)
    requires forall f | f in frames :: WellFramed(f)
    requires NEWLINE !in data && data != [] && data != DONE
    requires js.parse(data) == Some(evt) && DeltaReports(evt, k)
    requires k !in FoldFrames(DirectStep(js), NO_DIRECT, frames).usage
    ensures var text := Unframe(frames) + (DATA_SPACE + data);
            && k in AnthropicTotal(js, text).usage
            && k !in FoldFrames(DirectStep(js), NO_DIRECT, Frames(text)).usage
  {
    UnterminatedTail(js, data, evt, k);
    assert NEWLINE !in DATA_SPACE + data;
    FramesUnique(frames, DATA_SPACE + data);
  }

  // ---- What the collected usage means ----

  /** What Object.assign copies out of a value. */
  function Props(js: Js, x: Json): map<string, Json> {
    if x.Obj? then x.fields else js.ownProps(x)
  }

  function MergeAll(js: Js, parts: seq<Option<Json>>): Usage {
    if parts == [] then map[] else MergeUsage(js, MergeAll(js, parts[..|parts| - 1]), parts[|parts| - 1])
  }

  /** The value of k in the last part that has it. */
  function LastProp(js: Js, parts: seq<Option<Json>>, k: string): Option<Json> {
    if parts == [] then None
    else
      var last := parts[|parts| - 1];
      if Truthy(last) && k in Props(js, last.value) then Some(Props(js, last.value)[k])
      else LastProp(js, parts[..|parts| - 1], k)
  }

  lemma {:induction false} MergedProp(js: Js, parts: seq<Option<Json>>, k: string)
    ensures LastProp(js, parts, k) == if k in MergeAll(js, parts) then Some(MergeAll(js, parts)[k]) else None
  {
    if parts != [] {
      MergedProp(js, parts[..|parts| - 1], k);
    }
  }

  /** The usage an event carries. */
  function UsagePart(evt: Json): Option<Json> {
    if IsText(Get(evt, "type"), "message_start") then GetOpt(Get(evt, "message"), "usage")
    else if IsText(Get(evt, "type"), "message_delta") then Get(evt, "usage")
    else None
  }

  function UsageParts(evts: seq<Json>): (r: seq<Option<Json>>)
    ensures |r| == |evts|
  {
    seq(|evts|, i requires 0 <= i < |evts| => UsagePart(evts[i]))
  }

  /** Every usage count is the one reported last. */
  lemma UsageIsLastReported(js: Js, evts: seq<Json>, k: string)
    ensures var usage := FoldEvents(js, evts).usage;
            LastProp(js, UsageParts(evts), k) == if k in usage then Some(usage[k]) else None
  {
    UsageMerged(js, evts);
    MergedProp(js, UsageParts(evts), k);
  }

  lemma {:induction false} UsageMerged(js: Js, evts: seq<Json>)
    ensures FoldEvents(js, evts).usage == MergeAll(js, UsageParts(evts))
  {
    if evts != [] {
      var front := evts[..|evts| - 1];
      UsageMerged(js, front);
      assert UsageParts(evts)[..|evts| - 1] == UsageParts(front);
      StepUsage(js, FoldEvents(js, front), evts[|evts| - 1]);
    }
  }

  lemma StepUsage(js: Js, st: AnthropicState, evt: Json)
    ensures AnthropicEvent(js, st, evt).usage == MergeUsage(js, st.usage, UsagePart(evt))
  {
    KindsDiffer();
  }

  // ---- What the main tap's state means ----

  function TextDelta(evt: Json): Text {
    var delta := Get(evt, "delta");
    var text := GetOpt(delta, "text");
    if IsText(Get(evt, "type"), "content_block_delta") && IsText(GetOpt(delta, "type"), "text_delta")
       && text.Some? && text.value.Str? then text.value.s
    else []
  }

  /** The part of a tool's arguments an event carries for block idx. */
  function JsonDelta(evt: Json, idx: JsNumber): Text {
    var delta := Get(evt, "delta");
    var part := GetOpt(delta, "partial_json");
    if IsText(Get(evt, "type"), "content_block_delta") && IsText(GetOpt(delta, "type"), "input_json_delta")
       && part.Some? && part.value.Str? && Get(evt, "index") == Some(Num(idx)) then part.value.s
    else []
  }

  /** The event opens a named tool call at block idx. */
  predicate OpensTool(evt: Json, idx: JsNumber) {
    var block := Get(evt, "content_block");
    && IsText(Get(evt, "type"), "content_block_start")
    && IsText(GetOpt(block, "type"), "tool_use")
    && Truthy(GetOpt(block, "name"))
    && Get(evt, "index") == Some(Num(idx))
  }

  function FoldEvents(js: Js, evts: seq<Json>): AnthropicState {
    if evts == [] then NO_ANTHROPIC
    else AnthropicEvent(js, FoldEvents(js, evts[..|evts| - 1]), evts[|evts| - 1])
  }

  lemma {:induction false} FoldOverEvents(js: Js, frames: seq<Text>)
    ensures FoldFrames(AnthropicStep(js), NO_ANTHROPIC, frames) == FoldEvents(js, EventsOf(js, frames, true))
  {
    if frames != [] {
      FoldOverEvents(js, frames[..|frames| - 1]);
      var front := EventsOf(js, frames[..|frames| - 1], true);
      var evt := EventOf(js, frames[|frames| - 1], true);
      if evt.Some? {
        assert (front + [evt.value])[..|front|] == front;
      }
    }
  }

  function TextDeltas(evts: seq<Json>): Text {
    if evts == [] then [] else TextDeltas(evts[..|evts| - 1]) + TextDelta(evts[|evts| - 1])
  }

  /** The arguments since block idx was last opened, None when it never was. */
  function ToolInput(evts: seq<Json>, idx: JsNumber): Option<Text> {
    if evts == [] then None
    else
      var evt, before := evts[|evts| - 1], ToolInput(evts[..|evts| - 1], idx);
      if OpensTool(evt, idx) then Some([])
      else if before.None? then None
      else Some(before.value + JsonDelta(evt, idx))
  }

  /** The event that last opened a tool at block idx. */
  function LastOpening(evts: seq<Json>, idx: JsNumber): (r: Option<Json>)
    ensures r.Some? ==> OpensTool(r.value, idx)
  {
    if evts == [] then None
    else if OpensTool(evts[|evts| - 1], idx) then Some(evts[|evts| - 1])
    else LastOpening(evts[..|evts| - 1], idx)
  }

  /** What the block carries by this name. */
  function OfBlock(evt: Json, name: string): Option<Json> {
    GetOpt(Get(evt, "content_block"), name)
  }

  /** How many tool blocks start, named or not. */
  function ToolStarts(evts: seq<Json>): nat {
    if evts == [] then 0
    else
      var evt := evts[|evts| - 1];
      ToolStarts(evts[..|evts| - 1])
      + if IsText(Get(evt, "type"), "content_block_start")
           && IsText(GetOpt(Get(evt, "content_block"), "type"), "tool_use") then 1 else 0
  }

  lemma StepCount(js: Js, st: AnthropicState, evt: Json)
    ensures AnthropicEvent(js, st, evt).toolUseCount == st.toolUseCount + ToolStarts([evt])
  {
    KindsDiffer();
    assert [evt][..0] == [];
  }

  lemma {:induction false} ToolsMeaning(js: Js, evts: seq<Json>, idx: JsNumber)
    ensures var st := FoldEvents(js, evts);
            && st.toolUseCount == ToolStarts(evts)
            && (idx in st.toolUse <==> LastOpening(evts, idx).Some?)
            && (idx in st.toolUse ==>
                  var opening := LastOpening(evts, idx).value;
                  && Some(st.toolUse[idx].name) == OfBlock(opening, "name")
                  && st.toolUse[idx].id == Coalesce(OfBlock(opening, "id"), Some(Str([]))).value)
  {
    if evts != [] {
      var front, evt := evts[..|evts| - 1], evts[|evts| - 1];
      ToolsMeaning(js, front, idx);
      StepCount(js, FoldEvents(js, front), evt);
      StepTool(js, FoldEvents(js, front), evt, idx);
      assert [evt][..0] == [];
    }
  }

  lemma KindsDiffer()
    ensures Lit("content_block_start") != Lit("content_block_delta")
    ensures Lit("message_start") != Lit("message_delta")
    ensures Lit("text_delta") != Lit("input_json_delta")
  {
    assert Lit("content_block_start")[14] != Lit("content_block_delta")[14];
    assert Lit("message_start")[8] != Lit("message_delta")[8];
  }

  lemma StepText(js: Js, st: AnthropicState, evt: Json)
    ensures AnthropicEvent(js, st, evt).outputText == st.outputText + TextDelta(evt)
  {
    KindsDiffer();
  }

  lemma StepTool(js: Js, st: AnthropicState, evt: Json, idx: JsNumber)
    ensures var tools := AnthropicEvent(js, st, evt).toolUse;
            && (OpensTool(evt, idx) ==> idx in tools && tools[idx] == Opened(evt))
            && (!OpensTool(evt, idx) ==> (idx in tools <==> idx in st.toolUse))
            && (!OpensTool(evt, idx) && idx in st.toolUse ==>
                  tools[idx] == st.toolUse[idx].(inputJson := st.toolUse[idx].inputJson + JsonDelta(evt, idx)))
  {
    KindsDiffer();
    if IsText(Get(evt, "type"), "content_block_start") {
      if IsText(GetOpt(Get(evt, "content_block"), "type"), "tool_use") {
        OpenToolMeaning(st.(toolUseCount := st.toolUseCount + 1), evt, idx);
      }
    } else if IsText(Get(evt, "type"), "content_block_delta") {
      DeltaTool(js, st, evt, idx);
    }
  }

  /** The accumulator a block opens with: its id, or none given an empty one, its name, and no arguments yet. */
  function Opened(evt: Json): ToolAcc
    requires GetOpt(Get(evt, "content_block"), "name").Some?
  {
    var block := Get(evt, "content_block");
    var id := GetOpt(block, "id");
    ToolAcc(if id.Some? && id != Some(Null) then id.value else Str([]), GetOpt(block, "name").value, [])
  }

  lemma DeltaTool(js: Js, st: AnthropicState, evt: Json, idx: JsNumber)
    requires IsText(Get(evt, "type"), "content_block_delta")
    ensures var tools := AnthropicEvent(js, st, evt).toolUse;
            && (idx in tools <==> idx in st.toolUse)
            && (idx in st.toolUse ==>
                  tools[idx] == st.toolUse[idx].(inputJson := st.toolUse[idx].inputJson + JsonDelta(evt, idx)))
  {
    KindsDiffer();
  }

  lemma OpenToolMeaning(st: AnthropicState, evt: Json, idx: JsNumber)
    requires IsText(Get(evt, "type"), "content_block_start")
    requires IsText(GetOpt(Get(evt, "content_block"), "type"), "tool_use")
    ensures var tools := OpenTool(st, Get(evt, "index"), Get(evt, "content_block").value).toolUse;
            if OpensTool(evt, idx) then idx in tools && tools[idx] == Opened(evt)
            else (idx in tools <==> idx in st.toolUse) && (idx in tools ==> tools[idx] == st.toolUse[idx])
  {
  }

  /** The text is that of all text deltas in order; a block's arguments are those streamed since it was opened. */
  lemma {:induction false} CollectedMeaning(js: Js, evts: seq<Json>, idx: JsNumber)
    ensures var st := FoldEvents(js, evts);
            && st.outputText == TextDeltas(evts)
            && (idx in st.toolUse <==> ToolInput(evts, idx).Some?)
            && (idx in st.toolUse ==> st.toolUse[idx].inputJson == ToolInput(evts, idx).value)
  {
    if evts != [] {
      CollectedMeaning(js, evts[..|evts| - 1], idx);
      StepText(js, FoldEvents(js, evts[..|evts| - 1]), evts[|evts| - 1]);
      StepTool(js, FoldEvents(js, evts[..|evts| - 1]), evts[|evts| - 1], idx);
    }
  }

  /**
   * For a stream in any chunks whose frames say these events: the main tap ends with the text of all text deltas, the
   * number of tool blocks started, each usage count as reported last, and each block's last name and the arguments
   * streamed since; the direct tap with the same text and usage.
   */
  lemma TapMeaning(js: Js, chunks: seq<Text>, frames: seq<Text>, rest: Text, told: seq<Option<Json>>, idx: JsNumber,
                   k: string)
    requires Streams(chunks, frames, rest) && AllTell(js, frames, told, true)
    ensures var end := FeedChunks(AnthropicStep(js), NO_ANTHROPIC, chunks).acc;
            var evts := Present(told);
            && end.outputText == TextDeltas(evts)
            && end.toolUseCount == ToolStarts(evts)
            && (LastProp(js, UsageParts(evts), k) == if k in end.usage then Some(end.usage[k]) else None)
            && (idx in end.toolUse <==> ToolInput(evts, idx).Some?)
            && (idx in end.toolUse ==>
                  end.toolUse[idx].inputJson == ToolInput(evts, idx).value
                  && LastOpening(evts, idx).Some?
                  && Some(end.toolUse[idx].name) == OfBlock(LastOpening(evts, idx).value, "name")
                  && end.toolUse[idx].id == Coalesce(OfBlock(LastOpening(evts, idx).value, "id"), Some(Str([]))).value)
            && FeedChunks(DirectStep(js), NO_DIRECT, chunks).acc == DirectState(end.usage, end.outputText)
  {
    var evts := Present(told);
    EventsOfStream(js, chunks, frames, rest, told, true);
    ChunkingIrrelevant(AnthropicStep(js), NO_ANTHROPIC, chunks);
    ChunkingIrrelevant(DirectStep(js), NO_DIRECT, chunks);
    FoldsAgree(js, Frames(Concat(chunks)));
    FoldOverEvents(js, Frames(Concat(chunks)));
    CollectedMeaning(js, evts, idx);
    ToolsMeaning(js, evts, idx);
    UsageIsLastReported(js, evts, k);
  }

  // ---- What the Codex tap's state means ----

  function FoldCodex(js: Js, evts: seq<Json>): CodexState {
    if evts == [] then NO_CODEX else CodexEvent(js, FoldCodex(js, evts[..|evts| - 1]), evts[|evts| - 1])
  }

  lemma {:induction false} FoldOverCodex(js: Js, frames: seq<Text>)
    ensures FoldFrames(CodexStep(js), NO_CODEX, frames) == FoldCodex(js, EventsOf(js, frames, false))
  {
    if frames != [] {
      FoldOverCodex(js, frames[..|frames| - 1]);
      var front := EventsOf(js, frames[..|frames| - 1], false);
      var evt := EventOf(js, frames[|frames| - 1], false);
      if evt.Some? {
        assert (front + [evt.value])[..|front|] == front;
      }
    }
  }

  function CodexText(evt: Json): Text {
    var delta := Get(evt, "delta");
    if IsText(Get(evt, "type"), "response.output_text.delta") && delta.Some? && delta.value.Str? then delta.value.s
    else []
  }

  predicate CodexCalls(evt: Json) {
    IsText(Get(evt, "type"), "response.output_item.added") && IsText(GetOpt(Get(evt, "item"), "type"), "function_call")
  }

  /** The stop reason an event brings: the status of a completed response, the cause of an incomplete one. */
  function CodexStop(js: Js, evt: Json): Option<Json> {
    var resp := Get(evt, "response");
    if IsText(Get(evt, "type"), "response.completed") then Coalesce(GetOpt(resp, "status"), Some(Str(Lit("completed"))))
    else if IsText(Get(evt, "type"), "response.incomplete") && IncompleteReason(js, resp).Some? then
      Some(Str(IncompleteReason(js, resp).value))
    else None
  }

  /** The stop reason of an incomplete response names its cause, "unknown" when none is given. */
  lemma IncompleteStops(js: Js, evt: Json)
    requires IsText(Get(evt, "type"), "response.incomplete")
    ensures var reason := GetOpt(GetOpt(Get(evt, "response"), "incomplete_details"), "reason");
            match reason
            case None => CodexStop(js, evt) == Some(Str(Lit("incomplete:unknown")))
            case Some(Null) => CodexStop(js, evt) == Some(Str(Lit("incomplete:unknown")))
            case Some(Str(r)) => CodexStop(js, evt) == Some(Str(Lit("incomplete:") + r))
            case Some(x) =>
              var text := js.toText(x);
              CodexStop(js, evt) == if text.None? then None else Some(Str(Lit("incomplete:") + text.value))
  {
    CodexKindsDiffer();
    assert Lit("incomplete:") + Lit("unknown") == Lit("incomplete:unknown");
  }

  function CodexUsage(js: Js, evt: Json): Option<Json> {
    if CodexStop(js, evt).Some? then GetOpt(Get(evt, "response"), "usage") else None
  }

  function CodexParts(js: Js, evts: seq<Json>): (r: seq<Option<Json>>)
    ensures |r| == |evts|
  {
    seq(|evts|, i requires 0 <= i < |evts| => CodexUsage(js, evts[i]))
  }

  function CodexTexts(evts: seq<Json>): Text {
    if evts == [] then [] else CodexTexts(evts[..|evts| - 1]) + CodexText(evts[|evts| - 1])
  }

  function CodexCallCount(evts: seq<Json>): nat {
    if evts == [] then 0 else CodexCallCount(evts[..|evts| - 1]) + if CodexCalls(evts[|evts| - 1]) then 1 else 0
  }

  function LastStop(js: Js, evts: seq<Json>): Option<Json> {
    if evts == [] then None
    else
      var stop := CodexStop(js, evts[|evts| - 1]);
      if stop.Some? then stop else LastStop(js, evts[..|evts| - 1])
  }

  lemma CodexKindsDiffer()
    ensures Lit("response.completed") != Lit("response.incomplete")
    ensures Lit("response.output_text.delta") != Lit("response.output_item.added")
  {
    assert Lit("response.output_text.delta")[16] != Lit("response.output_item.added")[16];
  }

  lemma StepCodex(js: Js, st: CodexState, evt: Json)
    ensures var st' := CodexEvent(js, st, evt);
            && st'.outputText == st.outputText + CodexText(evt)
            && st'.toolUseCount == st.toolUseCount + (if CodexCalls(evt) then 1 else 0)
            && st'.stopReason == (if CodexStop(js, evt).Some? then CodexStop(js, evt) else st.stopReason)
            && st'.usage == MergeUsage(js, st.usage, CodexUsage(js, evt))
  {
    CodexKindsDiffer();
  }

  lemma {:induction false} CodexMeaning(js: Js, evts: seq<Json>)
    ensures var st := FoldCodex(js, evts);
            && st.outputText == CodexTexts(evts)
            && st.toolUseCount == CodexCallCount(evts)
            && st.stopReason == LastStop(js, evts)
            && st.usage == MergeAll(js, CodexParts(js, evts))
  {
    if evts != [] {
      var front := evts[..|evts| - 1];
      CodexMeaning(js, front);
      assert CodexParts(js, evts)[..|evts| - 1] == CodexParts(js, front);
      StepCodex(js, FoldCodex(js, front), evts[|evts| - 1]);
    }
  }

  /**
   * For a stream in any chunks whose frames say these events: the text of all deltas, the number of calls, the last
   * stop reason, and each usage count as reported last.
   */
  lemma CodexTapMeaning(js: Js, chunks: seq<Text>, frames: seq<Text>, rest: Text, told: seq<Option<Json>>, k: string)
    requires Streams(chunks, frames, rest) && AllTell(js, frames, told, false)
    ensures var end := FeedChunks(CodexStep(js), NO_CODEX, chunks).acc;
            var evts := Present(told);
            && end.outputText == CodexTexts(evts)
            && end.toolUseCount == CodexCallCount(evts)
            && end.stopReason == LastStop(js, evts)
            && (LastProp(js, CodexParts(js, evts), k) == if k in end.usage then Some(end.usage[k]) else None)
  {
    var evts := Present(told);
    EventsOfStream(js, chunks, frames, rest, told, false);
    ChunkingIrrelevant(CodexStep(js), NO_CODEX, chunks);
    FoldOverCodex(js, Frames(Concat(chunks)));
    CodexMeaning(js, evts);
    MergedProp(js, CodexParts(js, evts), k);
  }

  /** The commonest frame: one line with an event. */
  lemma OneLineTells(js: Js, data: Text, evt: Json, skipDone: bool)
    requires NEWLINE !in data && !NoEvent(js, data, skipDone) && js.parse(data) == Some(evt)
    ensures Tells(js, DATA_SPACE + data, Some(evt), skipDone)
    ensures data[0] != 32 ==> Tells(js, DATA + data, Some(evt), skipDone)
  {
    OneLineData(DATA_SPACE + data, data);
    if data[0] != 32 {
      OneLineData(DATA + data, data);
    }
  }

  lemma OneLineData(l: Text, data: Text)
    requires NEWLINE !in l && CarriesData(l, data)
    ensures DataFrame(l, data)
  {
    var none: seq<Text> := [];
    assert none + [l] + none == [l];
    assert NoNewlines(none + [l] + none) && l == JoinLines(none + [l] + none) && NoneStarts(none, DATA);
  }

  // ---- The unterminated tail ----

  /** What the drain reads from a tail, by its lines. */
  lemma TailByLines(js: Js, rest: Text, pre: seq<Text>, data: Text, post: seq<Text>)
    requires NoNewlines(pre + [DATA_SPACE + data] + post) && NoneStarts(post, DATA_SPACE)
    requires rest == JoinLines(pre + [DATA_SPACE + data] + post) && !IsBlank(rest)
    ensures TailUsage(js, rest)
         == if !NoEvent(js, data, true) && IsText(Get(js.parse(data).value, "type"), "message_delta")
               && Truthy(Get(js.parse(data).value, "usage")) then Get(js.parse(data).value, "usage")
            else None
  {
    JoinThenLines(pre + [DATA_SPACE + data] + post);
    DataLineAt(pre, data, post);
  }
}
