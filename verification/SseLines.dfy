/** The shape of a frame by its lines, and the data line a consumer picks out of them. */
module SseLines {
  import opened JsText
  import opened SseFrames
  import opened TextLines

  const DATA_SPACE: Text := Lit("data: ")
  const DATA: Text := Lit("data:")
  const DONE: Text := Lit("[DONE]")

  predicate OnlyFirstEmpty(lines: seq<Text>) {
    forall i :: 1 <= i < |lines| ==> lines[i] != []
  }

  lemma FramedCons(l: Text, t: Text)
    requires NEWLINE !in l
    ensures WellFramed(l + [NEWLINE] + t) <==> t != [] && t[0] != NEWLINE && WellFramed(t)
  {
    var s := l + [NEWLINE] + t;
    assert forall i :: 0 <= i < |l| ==> s[i] == l[i] && l[i] in l;
    assert s[|l|] == NEWLINE;
    assert forall i :: 0 <= i < |t| ==> s[|l| + 1 + i] == t[i];
    if t != [] && t[0] != NEWLINE && !WellFramed(s) {
      var i :| 0 <= i < |s| && s[i] == NEWLINE && !(i + 1 < |s| && s[i + 1] != NEWLINE);
      assert i > |l|;
      assert t[i - |l| - 1] == NEWLINE;
    }
    if WellFramed(s) && t != [] {
      forall i | 0 <= i < |t| && t[i] == NEWLINE
        ensures i + 1 < |t| && t[i + 1] != NEWLINE
      {
        assert s[|l| + 1 + i] == NEWLINE;
        assert s[|l| + 1 + i + 1] == t[i + 1];
      }
    }
  }

  /** In a well-framed frame only the first line may be empty, and no other text has this property. */
  lemma {:induction false} FramedByLines(lines: seq<Text>)
    requires |lines| >= 1 && NoNewlines(lines)
    ensures WellFramed(JoinLines(lines)) <==> OnlyFirstEmpty(lines)
  {
    if |lines| == 1 {
      assert forall i :: 0 <= i < |lines[0]| ==> lines[0][i] in lines[0];
    } else {
      var tail := lines[1..];
      FramedByLines(tail);
      FramedCons(lines[0], JoinLines(tail));
      FirstUnit(tail);
      assert OnlyFirstEmpty(lines) <==> tail[0] != [] && OnlyFirstEmpty(tail) by {
        assert forall i :: 1 <= i < |lines| ==> lines[i] == tail[i - 1];
        assert forall i :: 0 <= i < |tail| ==> tail[i] == lines[i + 1];
      }
    }
  }

  /** A joined text starts with a newline, or is empty, exactly when its first line is empty. */
  lemma FirstUnit(lines: seq<Text>)
    requires |lines| >= 1 && NoNewlines(lines)
    ensures lines[0] == [] <==> JoinLines(lines) == [] || JoinLines(lines)[0] == NEWLINE
  {
    if lines[0] != [] {
      assert JoinLines(lines)[0] == lines[0][0] && lines[0][0] in lines[0];
    }
  }

  /** The filter's choice: the last line that starts with "data: ", or nothing. */
  function LastDataLine(lines: seq<Text>): (r: Text)
    ensures r == [] || (StartsWith(r, DATA_SPACE) && |r| >= 6)
    ensures r == [] || r in lines
  {
    if lines == [] then []
    else if StartsWith(lines[|lines| - 1], DATA_SPACE) then lines[|lines| - 1]
    else LastDataLine(lines[..|lines| - 1])
  }

  /** The taps' choice: what follows "data: " or "data:" on the last such line, or nothing. */
  function LastData(lines: seq<Text>): Text {
    if lines == [] then []
    else
      var l := lines[|lines| - 1];
      if StartsWith(l, DATA_SPACE) then l[6..]
      else if StartsWith(l, DATA) then l[5..]
      else LastData(lines[..|lines| - 1])
  }

  // ---- Which line is picked ----

  ghost predicate NoneStarts(lines: seq<Text>, prefix: Text) {
    forall l | l in lines :: !StartsWith(l, prefix)
  }

  lemma {:induction false} PassLastDataLine(lines: seq<Text>, post: seq<Text>)
    requires NoneStarts(post, DATA_SPACE)
    ensures LastDataLine(lines + post) == LastDataLine(lines)
    decreases |post|
  {
    if post == [] {
      assert lines + post == lines;
    } else {
      var n := |post| - 1;
      assert post[n] in post && forall l | l in post[..n] :: l in post;
      assert (lines + post)[..|lines + post| - 1] == lines + post[..n];
      PassLastDataLine(lines, post[..n]);
    }
  }

  /** The filter picks the last line that starts with "data: ", whatever stands around it. */
  lemma DataLineAt(pre: seq<Text>, data: Text, post: seq<Text>)
    requires NoneStarts(post, DATA_SPACE)
    ensures LastDataLine(pre + [DATA_SPACE + data] + post) == DATA_SPACE + data
    ensures (DATA_SPACE + data)[6..] == data
  {
    PassLastDataLine(pre + [DATA_SPACE + data], post);
    assert (pre + [DATA_SPACE + data])[..|pre|] == pre;
  }

  lemma NoDataLine(lines: seq<Text>)
    requires NoneStarts(lines, DATA_SPACE)
    ensures LastDataLine(lines) == []
  {
    PassLastDataLine([], lines);
    assert [] + lines == lines;
  }

  lemma {:induction false} PassLastData(lines: seq<Text>, post: seq<Text>)
    requires NoneStarts(post, DATA)
    ensures LastData(lines + post) == LastData(lines)
    decreases |post|
  {
    if post == [] {
      assert lines + post == lines;
    } else {
      var n := |post| - 1;
      assert post[n] in post && forall l | l in post[..n] :: l in post;
      assert (lines + post)[..|lines + post| - 1] == lines + post[..n];
      SpaceIsData(post[n]);
      PassLastData(lines, post[..n]);
    }
  }

  lemma SpaceIsData(l: Text)
    ensures StartsWith(l, DATA_SPACE) ==> StartsWith(l, DATA)
    ensures StartsWith(l, DATA) ==> (StartsWith(l, DATA_SPACE) <==> |l| > 5 && l[5] == 32)
  {
    assert DATA_SPACE == DATA + [32];
  }

  /** A line that carries this data to a tap: after "data:" and at most one space. */
  predicate CarriesData(l: Text, data: Text) {
    l == DATA_SPACE + data || (l == DATA + data && (data == [] || data[0] != 32))
  }

  /** The taps read the data of the last data line, in either spelling, whatever stands around it. */
  lemma DataAt(pre: seq<Text>, l: Text, data: Text, post: seq<Text>)
    requires CarriesData(l, data) && NoneStarts(post, DATA)
    ensures LastData(pre + [l] + post) == data
  {
    PassLastData(pre + [l], post);
    assert (pre + [l])[..|pre|] == pre;
    SpaceIsData(l);
    if l == DATA_SPACE + data {
      assert l[6..] == data && l[..6] == DATA_SPACE;
    } else {
      assert l[5..] == data && l[..5] == DATA;
    }
  }

  lemma NoData(lines: seq<Text>)
    requires NoneStarts(lines, DATA)
    ensures LastData(lines) == []
  {
    PassLastData([], lines);
    assert [] + lines == lines;
  }

  /** The frame with these lines around the line that carries the data. */
  ghost predicate DataFrame(frame: Text, data: Text) {
    exists pre: seq<Text>, l: Text, post: seq<Text> ::
      && NoNewlines(pre + [l] + post) && frame == JoinLines(pre + [l] + post)
      && CarriesData(l, data) && NoneStarts(post, DATA)
  }

  /** A frame without any data line. */
  ghost predicate DatalessFrame(frame: Text) {
    exists lines: seq<Text> ::
      |lines| >= 1 && NoNewlines(lines) && frame == JoinLines(lines) && NoneStarts(lines, DATA)
  }

  lemma DataOfFrame(frame: Text, data: Text)
    requires DataFrame(frame, data)
    ensures LastData(Lines(frame)) == data
  {
    var pre: seq<Text>, l: Text, post: seq<Text> :|
      && NoNewlines(pre + [l] + post) && frame == JoinLines(pre + [l] + post)
      && CarriesData(l, data) && NoneStarts(post, DATA);
    JoinThenLines(pre + [l] + post);
    DataAt(pre, l, data, post);
  }

  lemma NoDataOfFrame(frame: Text)
    requires DatalessFrame(frame)
    ensures LastData(Lines(frame)) == []
  {
    var lines: seq<Text> :|
      |lines| >= 1 && NoNewlines(lines) && frame == JoinLines(lines) && NoneStarts(lines, DATA);
    JoinThenLines(lines);
    NoData(lines);
  }

  lemma {:induction false} LastStarting(lines: seq<Text>, prefix: Text) returns (i: int)
    ensures -1 <= i < |lines|
    ensures i == -1 ==> NoneStarts(lines, prefix)
    ensures i >= 0 ==> StartsWith(lines[i], prefix) && NoneStarts(lines[i + 1..], prefix)
  {
    if lines == [] {
      i := -1;
    } else if StartsWith(lines[|lines| - 1], prefix) {
      i := |lines| - 1;
    } else {
      var n := |lines| - 1;
      i := LastStarting(lines[..n], prefix);
      assert lines == lines[..n] + [lines[n]];
      if i >= 0 {
        assert lines[i + 1..] == lines[..n][i + 1..] + [lines[n]];
      }
    }
  }

  lemma CutAfter(l: Text, prefix: Text)
    requires StartsWith(l, prefix)
    ensures l == prefix + l[|prefix|..]
  {
  }

  /** Every data line carries some data. */
  lemma DataOfLine(l: Text) returns (data: Text)
    requires StartsWith(l, DATA)
    ensures CarriesData(l, data)
  {
    SpaceIsData(l);
    if StartsWith(l, DATA_SPACE) {
      CutAfter(l, DATA_SPACE);
      data := l[|DATA_SPACE|..];
    } else {
      CutAfter(l, DATA);
      data := l[|DATA|..];
    }
  }

  lemma SplitAt(lines: seq<Text>, i: nat)
    requires i < |lines|
    ensures lines[..i] + [lines[i]] + lines[i + 1..] == lines
  {
  }

  /** Every frame carries data or has none. */
  lemma EveryFrameHasData(frame: Text)
    ensures DatalessFrame(frame) || exists data :: DataFrame(frame, data)
  {
    var lines := Lines(frame);
    LinesJoin(frame);
    var i := LastStarting(lines, DATA);
    if i >= 0 {
      var data := DataOfLine(lines[i]);
      SplitAt(lines, i);
      assert DataFrame(frame, data);
    }
  }

  method FindLastDataLine(lines: seq<Text>) returns (dataLine: Text)
    ensures dataLine == LastDataLine(lines)
  {
    dataLine := [];
    for i := 0 to |lines|
      invariant dataLine == LastDataLine(lines[..i])
    {
      assert lines[..i + 1][..i] == lines[..i];
      if StartsWith(lines[i], DATA_SPACE) {
        dataLine := lines[i];
      }
    }
    assert lines[..|lines|] == lines;
  }

  method FindLastData(lines: seq<Text>) returns (data: Text)
    ensures data == LastData(lines)
  {
    data := [];
    for i := 0 to |lines|
      invariant data == LastData(lines[..i])
    {
      assert lines[..i + 1][..i] == lines[..i];
      if StartsWith(lines[i], DATA_SPACE) {
        data := lines[i][6..];
      } else if StartsWith(lines[i], DATA) {
        data := lines[i][5..];
      }
    }
    assert lines[..|lines|] == lines;
  }
}
