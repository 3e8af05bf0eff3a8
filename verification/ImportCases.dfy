/**
 * Transcripts that show where the import's promises end: a tool call below the top level of its record, and a tool
 * call without arguments (agents/asset-import.ts:276-466, 829-830, 1010-1025).
 */
module ImportCases {
  import opened JsText
  import opened JsValue
  import opened TextLines
  import opened ImportModel
  import opened ImportParse
  import opened ImportUpload
  import opened ImportMemory

  // ---- Records ----

  /** A record with this role and content. */
  function Rec(role: string, content: Json): Json {
    Obj(map["role" := Str(Lit(role)), "content" := content])
  }

  lemma RecFields(role: string, content: Json)
    requires content != Null
    ensures RecordBody(Rec(role, content)) == Some(Rec(role, content))
    ensures NestedMessage(Rec(role, content)) == None
    ensures RoleText(Rec(role, content), None) == Lit(role)
    ensures Get(Rec(role, content), "content") == Some(content) && Get(Rec(role, content), "tool_calls").None?
  {
  }

  lemma ReadRec(js: Js, clock: Clock, role: string, content: Json, frags: seq<Frag>)
    requires role == "assistant" || role == "user"
    requires content != Null && ExpandContent(js, content) == Some(frags)
    ensures var obj := Rec(role, content);
            ReadRecord(js, clock, obj)
            == Some(Record(if role == "assistant" then Assistant else User, RecordHasToolUse(obj, None), frags,
                           clock(obj, None, obj)))
  {
    RecFields(role, content);
    assert Lit("assistant") !in {Lit("toolResult"), Lit("tool"), Lit("user")};
    assert CallEntries(js, []) == Some([]);
    assert frags + [] == frags;
  }

  lemma OneBlock(js: Js, b: Json, frags: seq<Frag>)
    requires ExpandBlock(js, b) == Some(frags)
    ensures ExpandBlocks(js, [b]) == Some(frags)
  {
    assert [b][1..] == [] && frags + [] == frags;
  }

  // ---- Transcripts of one and two lines ----

  /** A transcript line that holds this record. */
  ghost predicate IsLine(js: Js, line: Text, obj: Json) {
    NEWLINE !in line && Trim(line) != [] && js.parse(Trim(line)) == Some(obj)
  }

  lemma ParseOne(js: Js, clock: Clock, line: Text)
    requires NEWLINE !in line
    ensures Parse(js, clock, line) == AddRecord(Parsed([], []), ReadLine(js, clock, line))
  {
    LinesOne(line);
    ParseSnoc(js, clock, [], line);
    assert [] + [line] == [line];
  }

  lemma ParseTwo(js: Js, clock: Clock, l1: Text, l2: Text)
    requires NEWLINE !in l1 && NEWLINE !in l2
    ensures Parse(js, clock, l1 + [NEWLINE] + l2)
         == AddRecord(AddRecord(Parsed([], []), ReadLine(js, clock, l1)), ReadLine(js, clock, l2))
  {
    LinesCons(l1, l2);
    LinesOne(l1);
    LinesOne(l2);
    ParseOne(js, clock, l1);
    ParseSnoc(js, clock, [l1], l2);
  }

  // ---- Nested tool calls ----

  const CALL: Json := Obj(map["type" := Str(Lit("tool_use")), "id" := Str(Lit("c")), "name" := Str(Lit("f"))])
  const SAID: Json := Obj(map["text" := Str(Lit("a"))])
  const WRAPPED: Json := Obj(map["content" := Arr([CALL])])

  /** An assistant record whose tool call sits one level down: [{text: "a"}, {content: [{type: "tool_use"}]}]. */
  const NESTED_CALL: Json := Rec("assistant", Arr([SAID, WRAPPED]))

  function CalledC(js: Js): Frag {
    CallFrag(js, Lit("c"), Some(Str(Lit("f"))), None)
  }

  lemma CallExpands(js: Js)
    ensures ExpandBlock(js, CALL) == Some([CalledC(js)])
  {
    TypesDiffer();
  }

  lemma NestedCallExpands(js: Js)
    ensures ExpandContent(js, Arr([SAID, WRAPPED])) == Some([TextFrag(Lit("a")), CalledC(js)])
  {
    CallExpands(js);
    OneBlock(js, CALL, [CalledC(js)]);
    assert ExpandBlock(js, WRAPPED) == ExpandContent(js, Arr([CALL])) == Some([CalledC(js)]);
    OneBlock(js, WRAPPED, [CalledC(js)]);
    OneBlock(js, SAID, [TextFrag(Lit("a"))]);
    ExpandAppend(js, [SAID], [WRAPPED]);
    assert [SAID] + [WRAPPED] == [SAID, WRAPPED];
    assert [TextFrag(Lit("a"))] + [CalledC(js)] == [TextFrag(Lit("a")), CalledC(js)];
  }

  lemma NestedCallUnseen()
    ensures !RecordHasToolUse(NESTED_CALL, None)
  {
    assert ItemsOf(Get(NESTED_CALL, "content")) == [SAID, WRAPPED];
    assert BlockType(SAID) == [] && BlockType(WRAPPED) == [];
  }

  lemma ShortTextIsNoNoise()
    ensures !IsHarnessNoise(Assistant, Lit("a"))
  {
    assert TrimStart(Lit("a")) == Lit("a");
    assert forall p | p in NOISE :: |p| > 1;
  }

  /** The two messages of a record of one short text and one call. */
  lemma TextAndCall(rec: Record, text: Frag, call: Frag)
    requires rec.role == Assistant && rec.frags == [text, call]
    requires text == TextFrag(Lit("a")) && call.role == Some(ToolCall)
    ensures AddRecord(Parsed([], []), Some(rec)).msgs == [MessageOf(rec, text, 0), MessageOf(rec, call, 0)]
    ensures AddRecord(Parsed([], []), Some(rec)).records == [rec]
  {
    ShortTextIsNoNoise();
    assert rec.frags[..1] == [text] && [text][..0] == [];
    assert MessagesOf(rec, [text], 0) == [] + [MessageOf(rec, text, 0)];
    assert MessagesOf(rec, rec.frags, 0) == [MessageOf(rec, text, 0)] + [MessageOf(rec, call, 0)];
  }

  /**
   * A nested call is expanded but not seen by the top-level test: in the transcript of that one record a round ends
   * between the record's text and its tool call.
   */
  lemma NestedCallIsCutOff(js: Js, clock: Clock, line: Text, sourceKey: Text)
    requires IsLine(js, line, NESTED_CALL)
    ensures var p := Parse(js, clock, line);
            var msgs := TagAll(p.msgs, sourceKey);
            && |p.records| == 1 && |msgs| == 2 && p.msgs[0].recIdx == p.msgs[1].recIdx
            && msgs[0].role == Assistant && msgs[1].role == ToolCall
            && FinalAnswersBefore(msgs, 0) != FinalAnswersBefore(msgs, 1)
            && AllRounds(msgs) == [[msgs[0]], [msgs[1]]]
  {
    NestedCallExpands(js);
    NestedCallUnseen();
    ReadRec(js, clock, "assistant", Arr([SAID, WRAPPED]), [TextFrag(Lit("a")), CalledC(js)]);
    var rec := ReadRecord(js, clock, NESTED_CALL).value;
    ParseOne(js, clock, line);
    TextAndCall(rec, TextFrag(Lit("a")), CalledC(js));
    CutAfterText(TagAll(Parse(js, clock, line).msgs, sourceKey));
  }

  lemma CutSnoc(msgs: seq<ImportMessage>, m: ImportMessage)
    ensures var c := CutRounds(msgs);
            CutRounds(msgs + [m])
            == if IsFinalAnswer(m) then Cut(c.rounds + [c.current + [m]], []) else Cut(c.rounds, c.current + [m])
  {
    assert (msgs + [m])[..|msgs|] == msgs;
  }

  lemma CutAfterText(msgs: seq<ImportMessage>)
    requires |msgs| == 2 && IsFinalAnswer(msgs[0]) && !IsFinalAnswer(msgs[1])
    ensures FinalAnswersBefore(msgs, 0) != FinalAnswersBefore(msgs, 1)
    ensures AllRounds(msgs) == [[msgs[0]], [msgs[1]]]
  {
    CutSnoc([], msgs[0]);
    CutSnoc([msgs[0]], msgs[1]);
    assert [] + [msgs[0]] == [msgs[0]] && [msgs[0]] + [msgs[1]] == msgs;
    assert [] + [[msgs[0]]] == [[msgs[0]]] && [] + [msgs[1]] == [msgs[1]];
    assert [[msgs[0]]] + [[msgs[1]]] == [[msgs[0]], [msgs[1]]];
    assert FinalAnswersBefore(msgs, 1) == 1;
  }

  // ---- Tool calls without arguments ----

  /** The messages of two records with one tool fragment each. */
  lemma TwoToolRecords(r1: Record, r2: Record, call: Frag, answer: Frag)
    requires r1.frags == [call] && call.role == Some(ToolCall) && r2.frags == [answer] && answer.role == Some(ToolResult)
    ensures AddRecord(AddRecord(Parsed([], []), Some(r1)), Some(r2)).msgs
         == [MessageOf(r1, call, 0), MessageOf(r2, answer, 1)]
  {
    assert [call][..0] == [] && [answer][..0] == [];
    assert MessagesOf(r1, [call], 0) == [] + [MessageOf(r1, call, 0)];
    assert MessagesOf(r2, [answer], 1) == [] + [MessageOf(r2, answer, 1)];
    assert [MessageOf(r1, call, 0)] + [MessageOf(r2, answer, 1)] == [MessageOf(r1, call, 0), MessageOf(r2, answer, 1)];
  }

  /** The call block names no arguments. */
  predicate NoArguments(call: Json) {
    Get(call, "input").None? && Get(call, "arguments").None?
  }

  lemma CallIsBlank(js: Js, call: Json, id: Text)
    requires CallsAs(call, id) && id != [] && NoArguments(call)
    ensures ExpandBlock(js, call).Some? && |ExpandBlock(js, call).value| == 1
            && ExpandBlock(js, call).value[0].content == []
  {
    TypesDiffer();
  }

  lemma AnswerSays(js: Js, answer: Json, id: Text)
    requires AnswersTo(answer, id) && id != []
    ensures ExpandBlock(js, answer).Some? && |ExpandBlock(js, answer).value| == 1
            && ExpandBlock(js, answer).value[0].content == OptBlockText(Get(answer, "content"))
  {
    TypesDiffer();
  }

  lemma TwoMessages(msgs: seq<ImportMessage>, id: Text)
    requires |msgs| == 2 && msgs[0].role == ToolCall && IsBlank(msgs[0].content)
    requires msgs[1].role == ToolResult && !IsBlank(msgs[1].content) && msgs[1].toolCallId == id
    ensures Says(msgs, ToolResult, id) && !Says(msgs, ToolCall, id)
  {
    assert msgs[1] in msgs;
  }

  /** The two records, each on its own line. */
  ghost predicate CallThenAnswer(js: Js, l1: Text, l2: Text, call: Json, answer: Json) {
    IsLine(js, l1, Rec("assistant", Arr([call]))) && IsLine(js, l2, Rec("user", Arr([answer])))
  }

  lemma OneToolRecord(js: Js, clock: Clock, line: Text, role: string, block: Json)
    requires role == "assistant" || role == "user"
    requires IsLine(js, line, Rec(role, Arr([block]))) && ExpandBlock(js, block).Some?
    ensures var rec := ReadLine(js, clock, line);
            rec.Some? && rec.value.frags == ExpandBlock(js, block).value
  {
    OneBlock(js, block, ExpandBlock(js, block).value);
    ReadRec(js, clock, role, Arr([block]), ExpandBlock(js, block).value);
  }

  lemma CallAndAnswerMessages(js: Js, clock: Clock, l1: Text, l2: Text, call: Json, answer: Json, id: Text)
    requires id != [] && CallsAs(call, id) && AnswersTo(answer, id) && CallThenAnswer(js, l1, l2, call, answer)
    ensures var msgs, c, a := Parse(js, clock, l1 + [NEWLINE] + l2).msgs, ExpandBlock(js, call), ExpandBlock(js, answer);
            && |msgs| == 2 && c.Some? && |c.value| == 1 && a.Some? && |a.value| == 1
            && msgs[0].role == ToolCall && msgs[0].content == c.value[0].content && msgs[0].toolCallId == id
            && msgs[1].role == ToolResult && msgs[1].content == a.value[0].content && msgs[1].toolCallId == id
  {
    CallAndAnswerPair(js, call, answer, id);
    OneToolRecord(js, clock, l1, "assistant", call);
    OneToolRecord(js, clock, l2, "user", answer);
    ParseTwo(js, clock, l1, l2);
    TwoToolRecords(ReadLine(js, clock, l1).value, ReadLine(js, clock, l2).value,
                   ExpandBlock(js, call).value[0], ExpandBlock(js, answer).value[0]);
  }

  /**
   * An assistant's call without arguments and the user's answer to it, in any of the dialects: the result is posted,
   * its call is not.
   */
  lemma CallWithoutArgumentsIsLost(js: Js, clock: Clock, l1: Text, l2: Text, call: Json, answer: Json, id: Text,
                                   sourceKey: Text)
    requires id != [] && CallsAs(call, id) && AnswersTo(answer, id) && CallThenAnswer(js, l1, l2, call, answer)
    requires NoArguments(call) && !IsBlank(OptBlockText(Get(answer, "content")))
    ensures var msgs := TagAll(Parse(js, clock, l1 + [NEWLINE] + l2).msgs, sourceKey);
            && Holds(Concat(Posts(msgs)), ToolResult, id)
            && !Holds(Concat(Posts(msgs)), ToolCall, id)
            && !PostsPaired(msgs)
  {
    CallAndAnswerMessages(js, clock, l1, l2, call, answer, id);
    CallIsBlank(js, call, id);
    AnswerSays(js, answer, id);
    var msgs := TagAll(Parse(js, clock, l1 + [NEWLINE] + l2).msgs, sourceKey);
    TwoMessages(msgs, id);
    PostedIffSaid(msgs, ToolResult, id);
    PostedIffSaid(msgs, ToolCall, id);
  }
}
