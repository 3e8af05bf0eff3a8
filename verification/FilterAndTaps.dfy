/**
 * The taps beside the filter: whatever the filter changes in a stream, the taps collect the same from what comes out
 * of it as from what went in (MemoryProxy/src/anthropicHandler.ts:1855-1949, 2252-2345).
 */
module FilterAndTaps {
  import opened JsText
  import opened JsValue
  import opened SseFrames
  import opened SseLines
  import opened TextLines
  import opened ThinkingFix
  import opened SseTaps

  // ---- Events the filter patches ----

  /** An event of thinking, which no tap collects. */
  predicate IsThinkingEvent(evt: Json) {
    || (IsText(Get(evt, "type"), "content_block_start")
        && IsText(GetOpt(Get(evt, "content_block"), "type"), "thinking"))
    || (IsText(Get(evt, "type"), "content_block_delta")
        && IsText(GetOpt(Get(evt, "delta"), "type"), "thinking_delta"))
  }

  lemma ThinkingIsIgnored(js: Js, st: AnthropicState, evt: Json)
    requires IsThinkingEvent(evt)
    ensures AnthropicEvent(js, st, evt) == st
  {
    KindsDiffer();
    assert Lit("thinking")[1] != Lit("tool_use")[1];
  }

  /** A patched event is one of thinking, before the patch, after it, and printed and parsed again. */
  lemma PatchedIsThinking(js: Js, evt: Json)
    requires PatchEvent(js, evt).Some?
    ensures IsThinkingEvent(evt) && IsThinkingEvent(js.Reprint(PatchEvent(js, evt).value))
  {
    PatchTouchesThinkingOnly(js, evt);
    var e, k := PatchEvent(js, evt).value, HolderKey(evt);
    FixedHolder(js, Get(evt, k), HolderTag(evt));
    ReprintGet(js, e, "type");
    ReprintGet(js, e, k);
    ReprintGet(js, Get(e, k).value, "type");
  }

  // ---- Frames ----

  /** Replacing the data lines of a frame changes what a tap reads only where the filter has read it too. */
  lemma {:induction false} TapDataReplaced(lines: seq<Text>, s: Text)
    ensures var before, after := LastData(lines), LastData(ReplaceDataLines(lines, DATA_SPACE + s));
            || after == before
            || (after == s && LastDataLine(lines) != [] && before == LastDataLine(lines)[6..])
  {
    if lines != [] {
      var n := |lines| - 1;
      assert ReplaceDataLines(lines, DATA_SPACE + s)[..n] == ReplaceDataLines(lines[..n], DATA_SPACE + s);
      TapDataReplaced(lines[..n], s);
      assert (DATA_SPACE + s)[6..] == s;
    }
  }

  /** The tap reads the same event from a patched frame, or one of thinking from both, if any. */
  lemma PatchedFrameEvents(js: Js, frame: Text)
    requires js.Valid() && WellFramed(frame) && PatchOf(js, frame).Some?
    ensures var before, after := EventOf(js, frame, true), EventOf(js, RewriteFrame(js, frame), true);
            || after == before
            || ((before.Some? ==> IsThinkingEvent(before.value)) && (after.Some? ==> IsThinkingEvent(after.value)))
  {
    var e := PatchOf(js, frame).value;
    RewrittenLines(js, frame);
    TapDataReplaced(Lines(frame), js.stringify(e));
    PatchedIsThinking(js, js.parse(LastDataLine(Lines(frame))[6..]).value);
  }

  lemma FrameStepSame(js: Js, st: AnthropicState, frame: Text)
    requires js.Valid() && WellFramed(frame)
    ensures AnthropicStep(js)(st, RewriteFrame(js, frame)) == AnthropicStep(js)(st, frame)
  {
    if PatchOf(js, frame).Some? {
      PatchedFrameEvents(js, frame);
      var before, after := EventOf(js, frame, true), EventOf(js, RewriteFrame(js, frame), true);
      if after != before {
        if before.Some? {
          ThinkingIsIgnored(js, st, before.value);
        }
        if after.Some? {
          ThinkingIsIgnored(js, st, after.value);
        }
      }
    }
  }

  lemma {:induction false} FoldSame(js: Js, frames: seq<Text>)
    requires js.Valid() && forall f | f in frames :: WellFramed(f)
    ensures FoldFrames(AnthropicStep(js), NO_ANTHROPIC, RewriteAll(js, frames))
         == FoldFrames(AnthropicStep(js), NO_ANTHROPIC, frames)
  {
    if frames != [] {
      var n := |frames| - 1;
      assert frames[n] in frames && forall f | f in frames[..n] :: f in frames;
      FoldSame(js, frames[..n]);
      RewriteSnoc(js, frames);
      FrameStepSame(js, FoldFrames(AnthropicStep(js), NO_ANTHROPIC, frames[..n]), frames[n]);
    }
  }

  // ---- Streams ----

  lemma TailUsageKept(js: Js, rest: Text)
    ensures TailUsage(js, KeptTail(rest)) == TailUsage(js, rest)
  {
  }

  /** The filter is invisible to the taps: main and direct one collect the same before and behind it. */
  lemma FilterIsInvisible(js: Js, text: Text)
    requires js.Valid()
    ensures AnthropicTotal(js, Filtered(js, text)) == AnthropicTotal(js, text)
    ensures FoldFrames(DirectStep(js), NO_DIRECT, Frames(Filtered(js, text)))
         == FoldFrames(DirectStep(js), NO_DIRECT, Frames(text))
  {
    PiecesFramed(text);
    FilteredFrames(js, text);
    FoldSame(js, Frames(text));
    TailUsageKept(js, Rest(text));
    FoldsAgree(js, Frames(text));
    FoldsAgree(js, RewriteAll(js, Frames(text)));
  }
}
