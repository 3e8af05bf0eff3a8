/** Sessions kept as a stream of events, whose messages get no record index (agents/asset-import.ts:2021-2047). */
module ImportDsh {
  import opened JsText
  import opened JsValue
  import opened TextLines
  import opened ImportModel
  import opened ImportParse
  import opened ImportUpload
  import opened ImportMemory
  import opened ImportResponses

  /** typeof x === "object", for a value that is not null */
  predicate IsObject(x: Option<Json>) {
    x.Some? && (x.value.Obj? || x.value.Arr?)
  }

  /** A role and a content as a message; None when it has no text, is noise, or reading the content throws. */
  function SaidAs(js: Js, role: Text, content: Option<Json>): Option<ImportMessage> {
    var text := if content.None? then Some([]) else ExtractText(js, content.value);
    if text.None? || text.value == [] || IsHarnessNoise(RoleOf(role), text.value) then None
    else Some(ImportMessage(RoleOf(role), text.value, None, None, false, [], [], None, None))
  }

  function RoleOr(src: Json, otherwise: string): Text {
    var role := Get(src, "role");
    if role.Some? && role.value.Str? then role.value.s else Lit(otherwise)
  }

  /** The message of an event. */
  function EventMessage(js: Js, obj: Json): Option<ImportMessage> {
    var data := Get(obj, "data");
    if obj.Null? || !IsObject(data) then None
    else if IsText(Get(obj, "type"), "user/message") then
      SaidAs(js, RoleOr(data.value, "user"), Get(data.value, "content"))
    else if IsText(Get(obj, "type"), "assistant/message") then
      var nested := if IsObject(Get(data.value, "message")) then Get(data.value, "message").value else data.value;
      SaidAs(js, RoleOr(nested, "assistant"), Get(nested, "content"))
    else None
  }

  // ---- What an event says ----

  /** The message a source of text stands for: its role, or the one expected, and its text, unless empty or noise. */
  ghost predicate Said(js: Js, src: Json, expected: Role, m: Option<ImportMessage>) {
    var text := if Get(src, "content").None? then Some([]) else ExtractText(js, Get(src, "content").value);
    var role := if Get(src, "role").Some? && Get(src, "role").value.Str? then RoleOf(Get(src, "role").value.s)
                else expected;
    if text.None? || text == Some([]) || IsHarnessNoise(role, text.value) then m == None
    else m == Some(ImportMessage(role, text.value, None, None, false, [], [], None, None))
  }

  /**
   * A user's event says what its data says, an assistant's what the message in its data says, or else its data; a list
   * in the message's place says nothing.
   */
  lemma EventSays(js: Js, obj: Json, data: Json)
    requires Get(obj, "data") == Some(data) && data.Obj?
    ensures IsText(Get(obj, "type"), "user/message") ==> Said(js, data, User, EventMessage(js, obj))
    ensures IsText(Get(obj, "type"), "assistant/message") ==>
              && (forall fields | Get(data, "message") == Some(Obj(fields)) ::
                    Said(js, Obj(fields), Assistant, EventMessage(js, obj)))
              && (forall items | Get(data, "message") == Some(Arr(items)) :: EventMessage(js, obj) == None)
              && (!IsObject(Get(data, "message")) ==> Said(js, data, Assistant, EventMessage(js, obj)))
  {
    assert Lit("user/message")[0] == 117 && Lit("assistant/message")[0] == 97;
    assert Lit("user")[0] == 117 && Lit("assistant")[0] == 97;
    assert RoleOf(Lit("user")) == User && RoleOf(Lit("assistant")) == Assistant;
  }

  /** Other events say nothing, nor does one without data. */
  lemma OtherEvents(js: Js, obj: Json)
    requires Get(obj, "data").None? || (!IsText(Get(obj, "type"), "user/message")
                                        && !IsText(Get(obj, "type"), "assistant/message"))
    ensures EventMessage(js, obj) == None
  {
  }

  function LineMessage(js: Js, line: Text): Option<ImportMessage> {
    var t := Trim(line);
    if t == [] || js.parse(t).None? then None else EventMessage(js, js.parse(t).value)
  }

  /** Whitespace around a line changes nothing, and a line without JSON says nothing. */
  lemma DshLine(js: Js, pre: Text, line: Text, post: Text)
    requires IsBlank(pre) && IsBlank(post)
    requires line != [] && !IsWhitespace(line[0]) && !IsWhitespace(line[|line| - 1])
    ensures LineMessage(js, pre + line + post)
         == if js.parse(line).None? then None else EventMessage(js, js.parse(line).value)
    ensures LineMessage(js, pre) == None
  {
    TrimBoth(pre, line, post);
    TrimBlank(pre);
  }

  function LineMessages(js: Js, lines: seq<Text>): (r: seq<Option<ImportMessage>>)
    ensures |r| == |lines|
  {
    seq(|lines|, i requires 0 <= i < |lines| => LineMessage(js, lines[i]))
  }

  function DshMessages(js: Js, lines: seq<Text>): seq<ImportMessage> {
    Present(LineMessages(js, lines))
  }

  lemma DshSnoc(js: Js, lines: seq<Text>, i: nat)
    requires i < |lines|
    ensures var front, m := DshMessages(js, lines[..i]), LineMessage(js, lines[i]);
            DshMessages(js, lines[..i + 1]) == if m.Some? then front + [m.value] else front
  {
    assert LineMessages(js, lines[..i + 1])[..i] == LineMessages(js, lines[..i]);
  }

  method ParseDshSessionLines(js: Js, text: Text) returns (msgs: seq<ImportMessage>)
    ensures msgs == DshMessages(js, Lines(text))
  {
    msgs := [];
    var lines := Lines(text);
    for i := 0 to |lines|
      invariant msgs == DshMessages(js, lines[..i])
    {
      DshSnoc(js, lines, i);
      var m := LineMessage(js, lines[i]);
      if m.Some? {
        msgs := msgs + [m.value];
      }
    }
    assert lines[..|lines|] == lines;
  }

  lemma LineIsUnindexed(js: Js, line: Text)
    ensures LineMessage(js, line).Some? ==> LineMessage(js, line).value.recIdx.None?
  {
  }

  lemma Unindexed(js: Js, text: Text)
    ensures forall m | m in DshMessages(js, Lines(text)) :: m.recIdx.None?
  {
    var lines := Lines(text);
    var unindexed := (m: ImportMessage) => m.recIdx.None?;
    forall i | 0 <= i < |lines|
      ensures LineMessages(js, lines)[i].Some? ==> unindexed(LineMessages(js, lines)[i].value)
    {
      LineIsUnindexed(js, lines[i]);
    }
    PresentAll(LineMessages(js, lines), unindexed);
    assert forall m | m in DshMessages(js, lines) :: unindexed(m);
  }

  /**
   * Whatever the transcript, the memory path makes a single message of the whole session, in the role of its first
   * one; only a session of at most one message gets what the parsers that number theirs get.
   */
  lemma SessionCollapses(js: Js, text: Text, sourceKey: Text)
    ensures var msgs := TagAll(DshMessages(js, Lines(text)), sourceKey);
            && |MemoryMessages(msgs)| <= 1
            && (MemoryMessages(msgs) != [] ==> msgs != [] && MemoryMessages(msgs)[0].role == FlatRole(msgs[0]))
            && (Groups(msgs) == Singles(msgs) <==> |msgs| <= 1)
  {
    var msgs := TagAll(DshMessages(js, Lines(text)), sourceKey);
    Unindexed(js, text);
    forall i | 0 <= i < |msgs|
      ensures Key(msgs[i]) == -1
    {
      assert DshMessages(js, Lines(text))[i] in DshMessages(js, Lines(text));
    }
    GroupPerMessageIff(msgs);
    if msgs != [] {
      SameIndexCollapses(msgs);
    }
  }
}
