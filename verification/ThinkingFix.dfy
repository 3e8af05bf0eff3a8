/**
 * The in-band filter on an Anthropic stream: it gives every thinking block and thinking delta a string
 * `thinking` field and passes everything else through (MemoryProxy/src/anthropicHandler.ts:1855-1949).
 */
module ThinkingFix {
  import opened JsText
  import opened JsValue
  import opened SseFrames
  import opened SseLines
  import opened TextLines

  /** The content block or delta with its `thinking` made a string; None when nothing is to be done. */
  function FixHolder(js: Js, holder: Option<Json>, tag: string): Option<Json> {
    if !IsText(GetOpt(holder, "type"), tag) then None
    else
      match Get(holder.value, "thinking")
      case Some(Str(_)) => None
      case None => Some(SetField(holder.value, "thinking", Str([])))
      case Some(Null) => Some(SetField(holder.value, "thinking", Str([])))
      case Some(x) =>
        var text := js.toText(x);
        if text.None? then None else Some(SetField(holder.value, "thinking", Str(text.value)))
  }

  function SetField(e: Json, k: string, v: Json): Json {
    if e.Obj? then Obj(e.fields[k := v]) else e
  }

  /** The event with its holder fixed; None when no branch patches it. */
  function PatchEvent(js: Js, evt: Json): Option<Json> {
    var started :=
      if IsText(Get(evt, "type"), "content_block_start") then FixHolder(js, Get(evt, "content_block"), "thinking")
      else None;
    var evt1 := if started.Some? then SetField(evt, "content_block", started.value) else evt;
    var moved :=
      if IsText(Get(evt1, "type"), "content_block_delta") then FixHolder(js, Get(evt1, "delta"), "thinking_delta")
      else None;
    if moved.Some? then Some(SetField(evt1, "delta", moved.value))
    else if started.Some? then Some(evt1)
    else None
  }

  /** The patched event of a frame, None when the frame passes through. */
  function PatchOf(js: Js, frame: Text): Option<Json> {
    var dataLine := LastDataLine(Lines(frame));
    if dataLine == [] then None
    else
      var data := dataLine[6..];
      if data == [] || data == DONE then None
      else
        match js.parse(data)
        case None => None
        case Some(evt) => if evt.Null? then None else PatchEvent(js, evt)
  }

  function ReplaceDataLines(lines: seq<Text>, dataLine: Text): (r: seq<Text>)
    ensures |r| == |lines|
  {
    seq(|lines|, i requires 0 <= i < |lines| => if StartsWith(lines[i], DATA_SPACE) then dataLine else lines[i])
  }

  function RewriteFrame(js: Js, frame: Text): Text {
    match PatchOf(js, frame)
    case None => frame
    case Some(evt) => JoinLines(ReplaceDataLines(Lines(frame), DATA_SPACE + js.stringify(evt)))
  }

  function RewriteAll(js: Js, frames: seq<Text>): (r: seq<Text>)
    ensures |r| == |frames|
  {
    seq(|frames|, i requires 0 <= i < |frames| => RewriteFrame(js, frames[i]))
  }

  /** flush: what is left of an unterminated tail. */
  function KeptTail(rest: Text): Text {
    if IsBlank(rest) then [] else rest
  }

  /** What the client receives for a whole stream. */
  function Filtered(js: Js, text: Text): Text {
    Unframe(RewriteAll(js, Frames(text))) + KeptTail(Rest(text))
  }

  // ---- The stream object ----

  datatype Emitted = Emitted(output: Text, patched: nat)

  function FixStep(js: Js): (Emitted, Text) -> Emitted {
    (e: Emitted, frame: Text) =>
      Emitted(e.output + RewriteFrame(js, frame) + BREAK, e.patched + if PatchOf(js, frame).Some? then 1 else 0)
  }

  /** Runs the filter over a list of chunks and closes it. */
  function FilterChunks(js: Js, chunks: seq<Text>): Text {
    var end := FeedChunks(FixStep(js), Emitted([], 0), chunks);
    end.acc.output + KeptTail(end.buf)
  }

  class ThinkingFixStream {
    const js: Js
    var sseBuf: Text
    var patchedCount: nat
    var output: Text
    ghost var received: Text

    ghost predicate Valid()
      reads this
    {
      Carried(sseBuf, Emitted(output, patchedCount))
      == Carried(Rest(received), FoldFrames(FixStep(js), Emitted([], 0), Frames(received)))
    }

    constructor (js: Js)
      ensures Valid() && this.js == js && received == [] && output == []
    {
      this.js := js;
      sseBuf, patchedCount, output, received := [], 0, [], [];
      assert FirstBreak([]) == -1;
    }

    method Enqueue(text: Text)
      modifies this`output
      ensures output == old(output) + text
    {
      output := output + text;
    }

    method ProcessFrame(frame: Text)
      modifies this`output, this`patchedCount
      ensures Emitted(output, patchedCount) == FixStep(js)(old(Emitted(output, patchedCount)), frame)
    {
      var lines := Lines(frame);
      var dataLine := FindLastDataLine(lines);
      if dataLine == [] {
        Enqueue(frame + BREAK);
        return;
      }
      var data := dataLine[6..];
      if data == [] || data == DONE {
        Enqueue(frame + BREAK);
        return;
      }
      var parsed := js.parse(data);
      if parsed.None? || parsed.value.Null? {
        Enqueue(frame + BREAK);
        return;
      }
      var patched := PatchEvent(js, parsed.value);
      if patched.Some? {
        patchedCount := patchedCount + 1;
        Enqueue(JoinLines(ReplaceDataLines(lines, DATA_SPACE + js.stringify(patched.value))) + BREAK);
      } else {
        Enqueue(frame + BREAK);
      }
    }

    /** After any chunks, what has been emitted depends on the text received and nothing else. */
    method Transform(chunk: Text)
      requires Valid()
      modifies this
      ensures Valid() && received == old(received) + chunk
      ensures Emitted(output, patchedCount) == FoldFrames(FixStep(js), Emitted([], 0), Frames(received))
    {
      ghost var before := Emitted(output, patchedCount);
      sseBuf := sseBuf + chunk;
      var parts := Frames(sseBuf);
      sseBuf := Rest(sseBuf);
      for i := 0 to |parts|
        invariant sseBuf == Rest(old(sseBuf) + chunk) && received == old(received)
        invariant Emitted(output, patchedCount) == FoldFrames(FixStep(js), before, parts[..i])
      {
        assert parts[..i + 1][..i] == parts[..i];
        ProcessFrame(parts[i]);
      }
      assert parts[..|parts|] == parts;
      FeedWhole(FixStep(js), Emitted([], 0), received, chunk);
      received := received + chunk;
    }

    method Flush()
      requires Valid()
      modifies this`output
      ensures output == Filtered(js, received)
    {
      FoldEmits(js, Frames(received));
      if !IsBlank(sseBuf) {
        Enqueue(sseBuf);
      }
    }
  }

  // ---- Independence of chunking ----

  function CountPatched(js: Js, frames: seq<Text>): nat {
    if frames == [] then 0
    else CountPatched(js, frames[..|frames| - 1]) + if PatchOf(js, frames[|frames| - 1]).Some? then 1 else 0
  }

  lemma {:induction false} UnframeSnoc(frames: seq<Text>, f: Text)
    ensures Unframe(frames + [f]) == Unframe(frames) + f + BREAK
  {
    if frames == [] {
      assert frames + [f] == [f];
      assert Unframe([f]) == f + BREAK + Unframe([]);
    } else {
      assert (frames + [f])[1..] == frames[1..] + [f];
      UnframeSnoc(frames[1..], f);
    }
  }

  lemma RewriteSnoc(js: Js, frames: seq<Text>)
    requires frames != []
    ensures var n := |frames| - 1;
            RewriteAll(js, frames) == RewriteAll(js, frames[..n]) + [RewriteFrame(js, frames[n])]
  {
  }

  lemma {:induction false} FoldEmits(js: Js, frames: seq<Text>)
    ensures FoldFrames(FixStep(js), Emitted([], 0), frames)
         == Emitted(Unframe(RewriteAll(js, frames)), CountPatched(js, frames))
  {
    if frames != [] {
      var front, last := frames[..|frames| - 1], frames[|frames| - 1];
      FoldEmits(js, front);
      UnframeSnoc(RewriteAll(js, front), RewriteFrame(js, last));
      RewriteSnoc(js, frames);
    }
  }

  /** However the stream is cut into chunks, the client receives the same text. */
  lemma FilterIgnoresChunking(js: Js, chunks: seq<Text>)
    ensures FilterChunks(js, chunks) == Filtered(js, Concat(chunks))
  {
    ChunkingIrrelevant(FixStep(js), Emitted([], 0), chunks);
    FoldEmits(js, Frames(Concat(chunks)));
  }

  // ---- What a patch does ----

  ghost predicate IsString(x: Option<Json>) {
    x.Some? && x.value.Str?
  }

  /** The two values agree on every field but k. */
  ghost predicate SameBut(a: Option<Json>, b: Option<Json>, k: string) {
    a.Some? && b.Some? && a.value.Obj? && b.value.Obj? && a.value.fields - {k} == b.value.fields - {k}
  }

  ghost predicate IsMissing(x: Option<Json>) {
    x.None? || x.value.Null?
  }

  /** The holder is of the filter's kind and its `thinking` is no string, but can be made one. */
  ghost predicate NeedsFix(js: Js, holder: Option<Json>, tag: string) {
    var thinking := GetOpt(holder, "thinking");
    && IsText(GetOpt(holder, "type"), tag) && !IsString(thinking)
    && (IsMissing(thinking) || js.toText(thinking.value).Some?)
  }

  /** An event is patched exactly when it starts a thinking block, or carries a thinking delta, that needs the fix. */
  lemma PatchedIff(js: Js, evt: Json)
    ensures PatchEvent(js, evt).Some?
       <==> || (IsText(Get(evt, "type"), "content_block_start") && NeedsFix(js, Get(evt, "content_block"), "thinking"))
            || (IsText(Get(evt, "type"), "content_block_delta") && NeedsFix(js, Get(evt, "delta"), "thinking_delta"))
  {
    TagsDiffer();
  }

  /** The string the field becomes: empty for a missing one, the value's text otherwise. */
  ghost predicate IsTextOf(js: Js, fixed: Option<Json>, before: Option<Json>) {
    if IsMissing(before) then fixed == Some(Str([]))
    else js.toText(before.value).Some? && fixed == Some(Str(js.toText(before.value).value))
  }

  lemma FixedHolder(js: Js, holder: Option<Json>, tag: string)
    requires FixHolder(js, holder, tag).Some?
    ensures var fixed := FixHolder(js, holder, tag);
            && SameBut(fixed, holder, "thinking")
            && IsText(GetOpt(fixed, "type"), tag)
            && IsTextOf(js, GetOpt(fixed, "thinking"), GetOpt(holder, "thinking"))
            && !IsString(GetOpt(holder, "thinking"))
  {
    var fixed := FixHolder(js, holder, tag).value;
    assert fixed.fields - {"thinking"} == holder.value.fields - {"thinking"};
  }

  function HolderKey(evt: Json): string {
    if IsText(Get(evt, "type"), "content_block_start") then "content_block" else "delta"
  }

  function HolderTag(evt: Json): string {
    if IsText(Get(evt, "type"), "content_block_start") then "thinking" else "thinking_delta"
  }

  /** A patched event differs from the original in the `thinking` field of its holder, which is now a string. */
  lemma PatchTouchesThinkingOnly(js: Js, evt: Json)
    requires PatchEvent(js, evt).Some?
    ensures var k, e := HolderKey(evt), PatchEvent(js, evt).value;
            && SameBut(Some(e), Some(evt), k)
            && SameBut(Get(e, k), Get(evt, k), "thinking")
            && Get(e, "type") == Get(evt, "type")
            && IsTextOf(js, GetOpt(Get(e, k), "thinking"), GetOpt(Get(evt, k), "thinking"))
            && !IsString(GetOpt(Get(evt, k), "thinking"))
            && IsText(GetOpt(Get(e, k), "type"), HolderTag(evt))
  {
    TagsDiffer();
    var k, e := HolderKey(evt), PatchEvent(js, evt).value;
    FixedHolder(js, Get(evt, k), HolderTag(evt));
    var fixed := FixHolder(js, Get(evt, k), HolderTag(evt)).value;
    assert e == Obj(evt.fields[k := fixed]);
    assert e.fields - {k} == evt.fields - {k};
  }

  lemma TagsDiffer()
    ensures Lit("content_block_start") != Lit("content_block_delta")
  {
    assert Lit("content_block_start")[14] != Lit("content_block_delta")[14];
  }

  /** A patched event needs no second patch, also after it has been printed and parsed again. */
  lemma PatchSettles(js: Js, evt: Json)
    requires PatchEvent(js, evt).Some?
    ensures PatchEvent(js, js.Reprint(PatchEvent(js, evt).value)).None?
  {
    TagsDiffer();
    PatchTouchesThinkingOnly(js, evt);
    var e, k := PatchEvent(js, evt).value, HolderKey(evt);
    ReprintGet(js, e, "type");
    ReprintGet(js, e, k);
    ReprintGet(js, Get(e, k).value, "type");
    ReprintGet(js, Get(e, k).value, "thinking");
    assert FixHolder(js, Get(js.Reprint(e), k), HolderTag(evt)).None?;
  }

  lemma {:induction false} LastDataLineReplaced(lines: seq<Text>, dataLine: Text)
    requires StartsWith(dataLine, DATA_SPACE)
    ensures LastDataLine(ReplaceDataLines(lines, dataLine)) == if LastDataLine(lines) == [] then [] else dataLine
  {
    if lines != [] {
      var n := |lines| - 1;
      assert ReplaceDataLines(lines, dataLine)[..n] == ReplaceDataLines(lines[..n], dataLine);
      LastDataLineReplaced(lines[..n], dataLine);
    }
  }

  lemma ReplacementHasNoNewlines(lines: seq<Text>, dataLine: Text)
    requires NoNewlines(lines) && NEWLINE !in dataLine
    ensures NoNewlines(ReplaceDataLines(lines, dataLine))
  {
    var lines' := ReplaceDataLines(lines, dataLine);
    forall i | 0 <= i < |lines'|
      ensures NEWLINE !in lines'[i]
    {
      assert lines[i] in lines;
    }
  }

  lemma ReplacementKeepsEmptiness(lines: seq<Text>, dataLine: Text)
    requires OnlyFirstEmpty(lines) && dataLine != []
    ensures OnlyFirstEmpty(ReplaceDataLines(lines, dataLine))
  {
  }

  lemma ReplacementKeepsShape(lines: seq<Text>, dataLine: Text)
    requires |lines| >= 1 && NoNewlines(lines) && WellFramed(JoinLines(lines))
    requires NEWLINE !in dataLine && dataLine != []
    ensures var lines' := ReplaceDataLines(lines, dataLine);
            Lines(JoinLines(lines')) == lines' && WellFramed(JoinLines(lines'))
  {
    FramedByLines(lines);
    ReplacementHasNoNewlines(lines, dataLine);
    ReplacementKeepsEmptiness(lines, dataLine);
    var lines' := ReplaceDataLines(lines, dataLine);
    JoinThenLines(lines');
    FramedByLines(lines');
  }

  /** A patched frame keeps its lines but for the data lines, which all become one line carrying the event. */
  lemma RewrittenLines(js: Js, frame: Text)
    requires js.Valid() && WellFramed(frame) && PatchOf(js, frame).Some?
    ensures var e := PatchOf(js, frame).value;
            && Lines(RewriteFrame(js, frame)) == ReplaceDataLines(Lines(frame), DATA_SPACE + js.stringify(e))
            && js.parse(js.stringify(e)) == Some(js.Reprint(e))
    ensures WellFramed(RewriteFrame(js, frame))
  {
    var e := PatchOf(js, frame).value;
    LinesJoin(frame);
    assert NEWLINE !in DATA_SPACE + js.stringify(e);
    ReplacementKeepsShape(Lines(frame), DATA_SPACE + js.stringify(e));
  }

  /** Filtering a patched frame again changes nothing, and a patch is never invisible. */
  lemma RewrittenSettles(js: Js, frame: Text)
    requires js.Valid() && WellFramed(frame) && PatchOf(js, frame).Some?
    ensures PatchOf(js, RewriteFrame(js, frame)).None?
    ensures RewriteFrame(js, frame) != frame
  {
    var e := PatchOf(js, frame).value;
    var dataLine := DATA_SPACE + js.stringify(e);
    RewrittenLines(js, frame);
    LastDataLineReplaced(Lines(frame), dataLine);
    assert dataLine[6..] == js.stringify(e);
    PatchSettles(js, js.parse(LastDataLine(Lines(frame))[6..]).value);
  }

  // ---- Whole streams ----

  lemma FilteredFrames(js: Js, text: Text)
    requires js.Valid()
    ensures Frames(Filtered(js, text)) == RewriteAll(js, Frames(text))
    ensures Rest(Filtered(js, text)) == KeptTail(Rest(text))
  {
    PiecesFramed(text);
    var frames := RewriteAll(js, Frames(text));
    forall i | 0 <= i < |frames|
      ensures WellFramed(frames[i])
    {
      assert Frames(text)[i] in Frames(text);
      if PatchOf(js, Frames(text)[i]).Some? {
        RewrittenLines(js, Frames(text)[i]);
      }
    }
    FramesUnique(frames, KeptTail(Rest(text)));
  }

  /** Filtering twice equals filtering once. */
  lemma FilterIdempotent(js: Js, text: Text)
    requires js.Valid()
    ensures Filtered(js, Filtered(js, text)) == Filtered(js, text)
  {
    PiecesFramed(text);
    FilteredFrames(js, text);
    var frames := Frames(text);
    forall i | 0 <= i < |frames|
      ensures RewriteFrame(js, RewriteFrame(js, frames[i])) == RewriteFrame(js, frames[i])
    {
      assert frames[i] in frames;
      if PatchOf(js, frames[i]).Some? {
        RewrittenSettles(js, frames[i]);
      }
    }
    assert RewriteAll(js, RewriteAll(js, frames)) == RewriteAll(js, frames);
  }

  /** The filter is transparent exactly when no frame needs a patch and no blank tail is dropped. */
  lemma FilterTransparent(js: Js, text: Text)
    requires js.Valid()
    ensures Filtered(js, text) == text
       <==> (forall f | f in Frames(text) :: PatchOf(js, f).None?) && (IsBlank(Rest(text)) ==> Rest(text) == [])
  {
    PiecesFramed(text);
    Reassemble(text);
    var frames := Frames(text);
    if forall f | f in frames :: PatchOf(js, f).None? {
      assert RewriteAll(js, frames) == frames;
    }
    if Filtered(js, text) == text {
      FilteredFrames(js, text);
      forall f | f in frames
        ensures PatchOf(js, f).None?
      {
        var i :| 0 <= i < |frames| && frames[i] == f;
        assert RewriteAll(js, frames)[i] == f;
        if PatchOf(js, f).Some? {
          RewrittenSettles(js, f);
        }
      }
    }
  }

  // ---- What the client receives, by the lines of its frames ----

  /** A frame whose last "data: " line, among these others, carries the data. */
  ghost predicate Framed(frame: Text, pre: seq<Text>, data: Text, post: seq<Text>) {
    && NoNewlines(pre + [DATA_SPACE + data] + post)
    && frame == JoinLines(pre + [DATA_SPACE + data] + post)
    && NoneStarts(post, DATA_SPACE)
  }

  /** Every "data: " line of the frame gives way to the printed event; the other lines stay. */
  ghost predicate CarriesInstead(js: Js, frame: Text, out: Text, evt: Json) {
    && |Lines(out)| == |Lines(frame)|
    && forall i :: 0 <= i < |Lines(frame)| ==>
         Lines(out)[i] == if StartsWith(Lines(frame)[i], DATA_SPACE) then DATA_SPACE + js.stringify(evt)
                          else Lines(frame)[i]
  }

  lemma FramedLines(frame: Text, pre: seq<Text>, data: Text, post: seq<Text>)
    requires Framed(frame, pre, data, post)
    ensures Lines(frame) == pre + [DATA_SPACE + data] + post
    ensures LastDataLine(Lines(frame)) == DATA_SPACE + data && (DATA_SPACE + data)[6..] == data
  {
    JoinThenLines(pre + [DATA_SPACE + data] + post);
    DataLineAt(pre, data, post);
  }

  /**
   * A frame that carries an event is rewritten to carry the patched event exactly when the event is patched; any
   * other frame passes through as it is.
   */
  lemma FrameWithEvent(js: Js, frame: Text, pre: seq<Text>, data: Text, post: seq<Text>, evt: Json)
    requires js.Valid() && WellFramed(frame) && Framed(frame, pre, data, post)
    requires data != [] && data != DONE && js.parse(data) == Some(evt) && evt != Null
    ensures PatchEvent(js, evt).Some? ==> CarriesInstead(js, frame, RewriteFrame(js, frame), PatchEvent(js, evt).value)
    ensures PatchEvent(js, evt).None? <==> RewriteFrame(js, frame) == frame
  {
    FramedLines(frame, pre, data, post);
    assert PatchOf(js, frame) == PatchEvent(js, evt);
    if PatchEvent(js, evt).Some? {
      RewrittenLines(js, frame);
      RewrittenSettles(js, frame);
    }
  }

  /** The frame carries no event: its data is empty, the end marker, no JSON, or null. */
  lemma FrameWithoutEvent(js: Js, frame: Text, pre: seq<Text>, data: Text, post: seq<Text>)
    requires Framed(frame, pre, data, post)
    requires data == [] || data == DONE || js.parse(data).None? || js.parse(data) == Some(Null)
    ensures RewriteFrame(js, frame) == frame
  {
    FramedLines(frame, pre, data, post);
  }

  lemma FrameWithoutData(js: Js, frame: Text)
    requires NoneStarts(Lines(frame), DATA_SPACE)
    ensures RewriteFrame(js, frame) == frame
  {
    NoDataLine(Lines(frame));
  }

  /** The common frame: one line, which carries the event. */
  lemma OneLineFrame(js: Js, data: Text, evt: Json)
    requires NEWLINE !in data && data != [] && data != DONE && js.parse(data) == Some(evt) && evt != Null
    ensures RewriteFrame(js, DATA_SPACE + data)
         == match PatchEvent(js, evt) case Some(e) => DATA_SPACE + js.stringify(e) case None => DATA_SPACE + data
  {
    var frame := DATA_SPACE + data;
    assert NEWLINE !in frame;
    LinesOne(frame);
    DataLineAt([], data, []);
    assert [] + [frame] + [] == [frame];
  }

  lemma {:induction false} UnframeAppend(a: seq<Text>, b: seq<Text>)
    ensures Unframe(a + b) == Unframe(a) + Unframe(b)
  {
    if a == [] {
      assert a + b == b;
    } else {
      assert (a + b)[1..] == a[1..] + b;
      UnframeAppend(a[1..], b);
    }
  }

  ghost predicate AllFramed(frames: seq<Text>) {
    forall f | f in frames :: WellFramed(f)
  }

  /** A stream is filtered frame by frame; of the tail only a blank one is dropped. */
  lemma FilteredByFrames(js: Js, frames: seq<Text>, rest: Text)
    requires AllFramed(frames) && BreakFree(rest)
    ensures Filtered(js, Unframe(frames) + rest)
         == Unframe(RewriteAll(js, frames)) + if IsBlank(rest) then [] else rest
  {
    FramesUnique(frames, rest);
  }

  lemma FilteredComplete(js: Js, frames: seq<Text>)
    requires AllFramed(frames)
    ensures Filtered(js, Unframe(frames)) == Unframe(RewriteAll(js, frames))
  {
    FilteredByFrames(js, frames, []);
    assert Unframe(frames) + [] == Unframe(frames);
    assert Unframe(RewriteAll(js, frames)) + [] == Unframe(RewriteAll(js, frames));
  }

  lemma UnframeAround(a: seq<Text>, f: Text, b: seq<Text>, rest: Text)
    ensures Unframe(a + [f] + b) + rest == Unframe(a) + f + BREAK + (Unframe(b) + rest)
  {
    UnframeAppend(a + [f], b);
    UnframeSnoc(a, f);
  }

  lemma RewriteAround(js: Js, before: seq<Text>, frame: Text, after: seq<Text>)
    ensures RewriteAll(js, before + [frame] + after)
         == RewriteAll(js, before) + [RewriteFrame(js, frame)] + RewriteAll(js, after)
  {
  }

  lemma FramedParts(before: seq<Text>, frame: Text, after: seq<Text>)
    requires AllFramed(before + [frame] + after)
    ensures AllFramed(before) && AllFramed(after)
  {
    assert forall f | f in before :: f in before + [frame] + after;
    assert forall f | f in after :: f in before + [frame] + after;
  }

  /** One frame of a stream: what stands before and behind it is filtered as if it stood alone. */
  lemma FilteredInPlace(js: Js, before: seq<Text>, frame: Text, after: seq<Text>, rest: Text)
    requires AllFramed(before + [frame] + after) && BreakFree(rest)
    ensures Filtered(js, Unframe(before + [frame] + after) + rest)
         == Filtered(js, Unframe(before)) + RewriteFrame(js, frame) + BREAK + Filtered(js, Unframe(after) + rest)
  {
    FramedParts(before, frame, after);
    FilteredByFrames(js, before + [frame] + after, rest);
    FilteredComplete(js, before);
    FilteredByFrames(js, after, rest);
    RewriteAround(js, before, frame, after);
    UnframeAround(RewriteAll(js, before), RewriteFrame(js, frame), RewriteAll(js, after),
                  if IsBlank(rest) then [] else rest);
  }

  /** A one-line frame anywhere in a stream: the client receives its event patched, the rest filtered on its own. */
  lemma EventInStream(js: Js, before: seq<Text>, data: Text, after: seq<Text>, rest: Text, evt: Json)
    requires AllFramed(before + [DATA_SPACE + data] + after) && BreakFree(rest)
    requires NEWLINE !in data && data != [] && data != DONE && js.parse(data) == Some(evt) && evt != Null
    ensures Filtered(js, Unframe(before + [DATA_SPACE + data] + after) + rest)
         == Filtered(js, Unframe(before))
            + (match PatchEvent(js, evt) case Some(e) => DATA_SPACE + js.stringify(e) case None => DATA_SPACE + data)
            + BREAK + Filtered(js, Unframe(after) + rest)
  {
    FilteredInPlace(js, before, DATA_SPACE + data, after, rest);
    OneLineFrame(js, data, evt);
  }
}
