/**
 * Framing of a server-sent event stream: text.split("\n\n"), of which the last piece is carried over to the
 * next chunk and the others are complete frames.
 */
module SseFrames {
  import opened JsText

  const BREAK: Text := [NEWLINE, NEWLINE]

  predicate BreakAt(s: Text, k: int) {
    0 <= k && k + 1 < |s| && s[k] == NEWLINE && s[k + 1] == NEWLINE
  }

  /** s.indexOf("\n\n") */
  function FirstBreak(s: Text): (k: int)
    ensures k == -1 || (BreakAt(s, k) && forall j :: 0 <= j < k ==> !BreakAt(s, j))
    ensures k == -1 ==> forall j :: !BreakAt(s, j)
  {
    if |s| < 2 then -1
    else if BreakAt(s, 0) then 0
    else
      var k := FirstBreak(s[1..]);
      assert forall j :: 0 < j ==> BreakAt(s, j) == BreakAt(s[1..], j - 1);
      if k == -1 then -1 else k + 1
  }

  /** The complete frames of a text: all of text.split("\n\n") but the last piece. */
  function Frames(s: Text): seq<Text> {
    var k := FirstBreak(s);
    if k == -1 then [] else [s[..k]] + Frames(s[k + 2..])
  }

  /** The last piece of text.split("\n\n"), what parts.pop() leaves in the buffer. */
  function Rest(s: Text): Text {
    var k := FirstBreak(s);
    if k == -1 then s else Rest(s[k + 2..])
  }

  function Unframe(frames: seq<Text>): Text {
    if frames == [] then [] else frames[0] + BREAK + Unframe(frames[1..])
  }

  /** A frame as split produces it: followed by a blank line, its first break is that blank line. */
  predicate WellFramed(f: Text) {
    forall i :: 0 <= i < |f| && f[i] == NEWLINE ==> i + 1 < |f| && f[i + 1] != NEWLINE
  }

  ghost predicate BreakFree(s: Text) {
    forall j :: !BreakAt(s, j)
  }

  lemma FirstFrameFramed(s: Text)
    requires FirstBreak(s) != -1
    ensures WellFramed(s[..FirstBreak(s)])
  {
    var k := FirstBreak(s);
    forall i | 0 <= i < k && s[i] == NEWLINE
      ensures i + 1 < k && s[i + 1] != NEWLINE
    {
      assert !BreakAt(s, i);
    }
  }

  /** Splitting loses nothing. */
  lemma {:induction false} Reassemble(s: Text)
    ensures Unframe(Frames(s)) + Rest(s) == s
    decreases |s|
  {
    var k := FirstBreak(s);
    if k != -1 {
      var tail := s[k + 2..];
      Reassemble(tail);
      assert Frames(s)[1..] == Frames(tail);
      assert s == s[..k] + BREAK + tail;
    }
  }

  /** Every piece is of the shape split promises. */
  lemma {:induction false} PiecesFramed(s: Text)
    ensures forall f | f in Frames(s) :: WellFramed(f)
    ensures BreakFree(Rest(s))
    decreases |s|
  {
    if FirstBreak(s) != -1 {
      FirstFrameFramed(s);
      PiecesFramed(s[FirstBreak(s) + 2..]);
    }
  }

  lemma FirstBreakOfFramed(f: Text, t: Text)
    requires WellFramed(f)
    ensures FirstBreak(f + BREAK + t) == |f|
  {
    var s := f + BREAK + t;
    assert BreakAt(s, |f|);
    forall j | 0 <= j < |f|
      ensures !BreakAt(s, j)
    {
      assert s[j] == f[j];
      if f[j] == NEWLINE {
        assert s[j + 1] == f[j + 1];
      }
    }
  }

  /** Splitting is the only way to cut a text into well-framed frames and a break-free rest. */
  lemma {:induction false} FramesUnique(frames: seq<Text>, rest: Text)
    requires forall f | f in frames :: WellFramed(f)
    requires BreakFree(rest)
    ensures Frames(Unframe(frames) + rest) == frames
    ensures Rest(Unframe(frames) + rest) == rest
    decreases |frames|
  {
    var s := Unframe(frames) + rest;
    if frames == [] {
      assert s == rest;
    } else {
      var t := Unframe(frames[1..]) + rest;
      assert s == frames[0] + BREAK + t;
      FirstBreakOfFramed(frames[0], t);
      assert s[..|frames[0]|] == frames[0];
      assert s[|frames[0]| + 2..] == t;
      FramesUnique(frames[1..], rest);
    }
  }

  lemma FirstBreakAppend(a: Text, b: Text)
    requires FirstBreak(a) != -1
    ensures var k := FirstBreak(a);
            && FirstBreak(a + b) == k
            && (a + b)[..k] == a[..k]
            && (a + b)[k + 2..] == a[k + 2..] + b
  {
    var k, s := FirstBreak(a), a + b;
    assert BreakAt(s, k);
    forall j | 0 <= j < k
      ensures !BreakAt(s, j)
    {
      assert !BreakAt(a, j);
    }
  }

  /** The buffer carries everything a chunk boundary can cut: a frame completed later is still found whole. */
  lemma {:induction false} FramesAppend(a: Text, b: Text)
    ensures Frames(a + b) == Frames(a) + Frames(Rest(a) + b)
    ensures Rest(a + b) == Rest(Rest(a) + b)
    decreases |a|
  {
    var k := FirstBreak(a);
    if k != -1 {
      var tail := a[k + 2..];
      FirstBreakAppend(a, b);
      FramesAppend(tail, b);
      assert Rest(a) == Rest(tail);
      assert Frames(a) == [a[..k]] + Frames(tail);
      assert Frames(a + b) == [a[..k]] + Frames(tail + b);
    }
  }

  // ---- The read loop every consumer shares ----

  /** What a consumer carries between chunks: the unterminated rest and its own accumulator. */
  datatype Carried<S> = Carried(buf: Text, acc: S)

  function FoldFrames<S>(step: (S, Text) -> S, acc: S, frames: seq<Text>): S {
    if frames == [] then acc
    else step(FoldFrames(step, acc, frames[..|frames| - 1]), frames[|frames| - 1])
  }

  /** One turn of the loop: append the chunk, split, keep the last piece, process the others in order. */
  function FeedChunk<S>(step: (S, Text) -> S, c: Carried<S>, chunk: Text): Carried<S> {
    Carried(Rest(c.buf + chunk), FoldFrames(step, c.acc, Frames(c.buf + chunk)))
  }

  function FeedChunks<S>(step: (S, Text) -> S, init: S, chunks: seq<Text>): Carried<S> {
    if chunks == [] then Carried([], init)
    else FeedChunk(step, FeedChunks(step, init, chunks[..|chunks| - 1]), chunks[|chunks| - 1])
  }

  lemma {:induction false} FoldAppend<S>(step: (S, Text) -> S, acc: S, a: seq<Text>, b: seq<Text>)
    ensures FoldFrames(step, acc, a + b) == FoldFrames(step, FoldFrames(step, acc, a), b)
    decreases |b|
  {
    if b == [] {
      assert a + b == a;
    } else {
      assert (a + b)[..|a + b| - 1] == a + b[..|b| - 1];
      FoldAppend(step, acc, a, b[..|b| - 1]);
    }
  }

  lemma FeedWhole<S>(step: (S, Text) -> S, init: S, received: Text, chunk: Text)
    ensures FeedChunk(step, Carried(Rest(received), FoldFrames(step, init, Frames(received))), chunk)
         == Carried(Rest(received + chunk), FoldFrames(step, init, Frames(received + chunk)))
  {
    FramesAppend(received, chunk);
    FoldAppend(step, init, Frames(received), Frames(Rest(received) + chunk));
  }

  /** However a text is cut into chunks, the loop ends in the state that one whole chunk would give. */
  lemma {:induction false} ChunkingIrrelevant<S>(step: (S, Text) -> S, init: S, chunks: seq<Text>)
    ensures var text := Concat(chunks);
            FeedChunks(step, init, chunks) == Carried(Rest(text), FoldFrames(step, init, Frames(text)))
    decreases |chunks|
  {
    if chunks == [] {
      assert FirstBreak([]) == -1;
    } else {
      var front, last := chunks[..|chunks| - 1], chunks[|chunks| - 1];
      ChunkingIrrelevant(step, init, front);
      assert chunks == front + [last];
      ConcatSnoc(front, last);
      FeedWhole(step, init, Concat(front), last);
    }
  }
}
