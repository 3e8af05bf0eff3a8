/** From a transcript in JSON lines to tagged messages (agents/asset-import.ts:221-468). */
module ImportParse {
  import opened JsText
  import opened JsValue
  import opened TextLines
  import opened ImportModel

  /** A piece of content; a tool fragment has its own role. */
  datatype Frag = Frag(role: Option<Role>, content: Text, toolCallId: Text, toolName: Text)

  function TextFrag(content: Text): Frag {
    Frag(None, content, [], [])
  }

  function StrVal(v: Option<Json>): Text {
    if v.Some? && v.value.Str? then v.value.s else []
  }

  /** a || b on strings */
  function OrElse(a: Text, b: Text): Text {
    if a == [] then b else a
  }

  function ArgsToString(js: Js, raw: Option<Json>): Text {
    match raw
    case None => []
    case Some(Null) => []
    case Some(Str(s)) => s
    case Some(e) => js.stringify(e)
  }

  function BlockText(content: Json): Text
    decreases content, 1
  {
    match content
    case Str(s) => s
    case Arr(items) => Join(NonEmpty(BlockTexts(items)), [NEWLINE])
    case Obj(_) =>
      if Get(content, "content").Some? then BlockText(Get(content, "content").value)
      else StrVal(Get(content, "text"))
    case _ => []
  }

  function BlockTexts(items: seq<Json>): seq<Text>
    decreases items, 0
  {
    if items == [] then [] else [BlockText(items[0])] + BlockTexts(items[1..])
  }

  function OptBlockText(content: Option<Json>): Text {
    if content.None? then [] else BlockText(content.value)
  }

  function CallFrag(js: Js, id: Text, name: Option<Json>, args: Option<Json>): Frag {
    Frag(Some(ToolCall), ArgsToString(js, args), id, OrElse(StrVal(name), Lit("unknown")))
  }

  /** One entry of a tool_calls array; reading a property of null throws. */
  function CallEntry(js: Js, tc: Json): Option<Frag> {
    if tc.Null? then None
    else
      var fn := Coalesce(Get(tc, "function"), Some(tc)).value;
      Some(CallFrag(js, StrVal(Get(tc, "id")), Get(fn, "name"), Get(fn, "arguments")))
  }

  function CallEntries(js: Js, calls: seq<Json>): Option<seq<Frag>> {
    if calls == [] then Some([])
    else
      var first, rest := CallEntry(js, calls[0]), CallEntries(js, calls[1..]);
      if first.None? || rest.None? then None else Some([first.value] + rest.value)
  }

  function ItemsOf(x: Option<Json>): seq<Json> {
    if x.Some? && x.value.Arr? then x.value.items else []
  }

  function BlockType(b: Json): Text {
    StrVal(Get(b, "type"))
  }

  /** A block that is a tool call by its own type. */
  predicate IsToolCallType(t: Text) {
    t in {Lit("tool_use"), Lit("toolCall"), Lit("function_call"), Lit("tool_calls")}
  }

  /** The fragments of one content block; None when the expansion throws. */
  function ExpandBlock(js: Js, b: Json): Option<seq<Frag>>
    decreases b, 1
  {
    if b.Str? then Some([TextFrag(b.s)])
    else if !b.Obj? then Some([])
    else
      var t := BlockType(b);
      if t == Lit("toolCall") then
        Some([CallFrag(js, StrVal(Get(b, "id")), Get(b, "name"), Coalesce(Get(b, "arguments"), Get(b, "input")))])
      else if t == Lit("tool_use") then
        Some([CallFrag(js, StrVal(Get(b, "id")), Get(b, "name"), Coalesce(Get(b, "input"), Get(b, "arguments")))])
      else if t == Lit("function_call") then
        Some([CallFrag(js, OrElse(StrVal(Get(b, "call_id")), StrVal(Get(b, "id"))), Get(b, "name"),
                       Get(b, "arguments"))])
      else if t == Lit("tool_calls") then
        CallEntries(js, if Get(b, "tool_calls").Some? && Get(b, "tool_calls").value.Arr?
                        then ItemsOf(Get(b, "tool_calls")) else ItemsOf(Get(b, "content")))
      else if t == Lit("tool_result") then
        Some([Frag(Some(ToolResult), OptBlockText(Get(b, "content")),
                   OrElse(OrElse(StrVal(Get(b, "tool_use_id")), StrVal(Get(b, "tool_call_id"))), StrVal(Get(b, "id"))),
                   OrElse(StrVal(Get(b, "toolName")), StrVal(Get(b, "name"))))])
      else if t == Lit("toolResult") then
        Some([Frag(Some(ToolResult), OptBlockText(Get(b, "content")),
                   OrElse(OrElse(StrVal(Get(b, "id")), StrVal(Get(b, "callId"))), StrVal(Get(b, "toolCallId"))),
                   OrElse(StrVal(Get(b, "toolName")), StrVal(Get(b, "name"))))])
      else if Get(b, "text").Some? && Get(b, "text").value.Str? then Some([TextFrag(Get(b, "text").value.s)])
      else if Get(b, "content").Some? then ExpandContent(js, Get(b, "content").value)
      else Some([])
  }

  function ExpandBlocks(js: Js, items: seq<Json>): Option<seq<Frag>>
    decreases items, 0
  {
    if items == [] then Some([])
    else
      var first, rest := ExpandBlock(js, items[0]), ExpandBlocks(js, items[1..]);
      if first.None? || rest.None? then None else Some(first.value + rest.value)
  }

  function ExpandContent(js: Js, content: Json): Option<seq<Frag>>
    decreases content, 1
  {
    match content
    case Str(s) => Some([TextFrag(s)])
    case Arr(items) => ExpandBlocks(js, items)
    case Obj(_) =>
      if Get(content, "content").Some? then ExpandContent(js, Get(content, "content").value) else Some([])
    case _ => Some([])
  }

  /** A top-level tool call in the record's own tool_calls or content, or in those of its nested message. */
  predicate HasToolUse(src: Json) {
    || ItemsOf(Get(src, "tool_calls")) != []
    || exists b | b in ItemsOf(Get(src, "content")) :: b.Obj? && IsToolCallType(BlockType(b))
  }

  predicate RecordHasToolUse(rec: Json, nested: Option<Json>) {
    HasToolUse(rec) || (nested.Some? && HasToolUse(nested.value))
  }

  const NOISE: seq<Text> := [
    Lit("<environment_context>"), Lit("<permissions"), Lit("<plugins_instructions>"), Lit("<skills_instructions>"),
    Lit("<turn_aborted>"), Lit("# AGENTS.md instructions"), Lit("<system-reminder>"), Lit("Current runtime context")]

  predicate IsHarnessNoise(role: Role, content: Text) {
    || role in {Other(Lit("developer")), Other(Lit("system"))}
    || exists p | p in NOISE :: StartsWith(TrimStart(content), p)
  }

  // ---- Records ----

  /** What one accepted line contributes. */
  datatype Record = Record(role: Role, hasTool: bool, frags: seq<Frag>, ts: Option<JsNumber>)

  /** The role string of the record: its own, its nested message's, or its type when that is user or assistant. */
  function RoleText(rec: Json, nested: Option<Json>): Text {
    var own, inner, kind := Get(rec, "role"), GetOpt(nested, "role"), StrVal(Get(rec, "type"));
    if own.Some? && own.value.Str? then own.value.s
    else if inner.Some? && inner.value.Str? then inner.value.s
    else if kind == Lit("user") || kind == Lit("assistant") then kind
    else []
  }

  /** The conversation role; tool output counts as the user's turn, every other role is skipped. */
  function SpeakerOf(role: Text): Option<Role> {
    if role in {Lit("toolResult"), Lit("tool"), Lit("user")} then Some(User)
    else if role == Lit("assistant") then Some(Assistant)
    else None
  }

  /** The record inside the parsed line, None when the line is of a skipped kind. */
  function RecordBody(obj: Json): Option<Json> {
    var kind := StrVal(Get(obj, "type"));
    var payload := Get(obj, "payload");
    if obj.Null? then None
    else if kind in {Lit("event_msg"), Lit("session_meta"), Lit("turn_context"), Lit("world_state")} then None
    else if kind == Lit("response_item") && payload.Some? && (payload.value.Obj? || payload.value.Arr?) then
      if Truthy(Get(payload.value, "type")) && !IsText(Get(payload.value, "type"), "message") then None else payload
    else Some(obj)
  }

  function NestedMessage(rec: Json): Option<Json> {
    var message := Get(rec, "message");
    if message.Some? && (message.value.Obj? || message.value.Arr?) then message else None
  }

  /** The record's timestamp; reading it is not part of this model. */
  type Clock = (Json, Option<Json>, Json) -> Option<JsNumber>

  /** The record of a parsed line; None when it is skipped or its expansion throws. */
  function ReadRecord(js: Js, clock: Clock, obj: Json): Option<Record> {
    var body := RecordBody(obj);
    if body.None? then None
    else
      var rec := body.value;
      var nested := NestedMessage(rec);
      var role := SpeakerOf(RoleText(rec, nested));
      if role.None? then None
      else
        var content := Coalesce(Get(rec, "content"), GetOpt(nested, "content"));
        var frags := if content.None? then Some([]) else ExpandContent(js, content.value);
        var calls := CallEntries(js, ItemsOf(Coalesce(Get(rec, "tool_calls"), GetOpt(nested, "tool_calls"))));
        if frags.None? || calls.None? then None
        else Some(Record(role.value, RecordHasToolUse(rec, nested), frags.value + calls.value, clock(rec, nested, obj)))
  }

  function ReadLine(js: Js, clock: Clock, line: Text): Option<Record> {
    var t := Trim(line);
    if t == [] then None
    else
      var obj := js.parse(t);
      if obj.None? then None else ReadRecord(js, clock, obj.value)
  }

  // ---- Messages ----

  /** Whether a fragment becomes a message: tool fragments always do, text unless it is empty or harness noise. */
  predicate IsKept(role: Role, f: Frag) {
    f.role.Some? || (f.content != [] && !IsHarnessNoise(role, f.content))
  }

  function MessageOf(rec: Record, f: Frag, recIdx: nat): ImportMessage {
    match f.role
    case None =>
      ImportMessage(rec.role, f.content, None, rec.ts, rec.role == Assistant && rec.hasTool, [], [], Some(recIdx),
                    Some(rec.role))
    case Some(role) =>
      ImportMessage(role, f.content, None, rec.ts, false, f.toolCallId, f.toolName, Some(recIdx), Some(rec.role))
  }

  function MessagesOf(rec: Record, frags: seq<Frag>, recIdx: nat): seq<ImportMessage> {
    if frags == [] then []
    else
      var front, last := MessagesOf(rec, frags[..|frags| - 1], recIdx), frags[|frags| - 1];
      if IsKept(rec.role, last) then front + [MessageOf(rec, last, recIdx)] else front
  }

  /** The messages read so far, and the record each index stands for; a record that keeps nothing takes no index. */
  datatype Parsed = Parsed(msgs: seq<ImportMessage>, records: seq<Record>)

  function AddRecord(p: Parsed, rec: Option<Record>): Parsed {
    if rec.None? then p
    else
      var new' := MessagesOf(rec.value, rec.value.frags, |p.records|);
      if new' == [] then p else Parsed(p.msgs + new', p.records + [rec.value])
  }

  function ParseLines(js: Js, clock: Clock, lines: seq<Text>): Parsed {
    if lines == [] then Parsed([], [])
    else AddRecord(ParseLines(js, clock, lines[..|lines| - 1]), ReadLine(js, clock, lines[|lines| - 1]))
  }

  function Parse(js: Js, clock: Clock, text: Text): Parsed {
    ParseLines(js, clock, Lines(text))
  }

  method PushFragments(rec: Record, recIdx: nat, msgs: seq<ImportMessage>)
    returns (out: seq<ImportMessage>, pushedAny: bool)
    ensures out == msgs + MessagesOf(rec, rec.frags, recIdx)
    ensures pushedAny <==> MessagesOf(rec, rec.frags, recIdx) != []
  {
    out, pushedAny := msgs, false;
    var frags := rec.frags;
    for k := 0 to |frags|
      invariant out == msgs + MessagesOf(rec, frags[..k], recIdx)
      invariant pushedAny <==> MessagesOf(rec, frags[..k], recIdx) != []
    {
      assert frags[..k + 1][..k] == frags[..k];
      var f := frags[k];
      if f.role.None? {
        if f.content != [] && !IsHarnessNoise(rec.role, f.content) {
          out, pushedAny := out + [MessageOf(rec, f, recIdx)], true;
        }
      } else {
        out, pushedAny := out + [MessageOf(rec, f, recIdx)], true;
      }
    }
    assert frags[..|frags|] == frags;
  }

  lemma Added(p: Parsed, rec: Record)
    ensures var p', more := AddRecord(p, Some(rec)), MessagesOf(rec, rec.frags, |p.records|);
            && p'.msgs == p.msgs + more
            && |p'.records| == |p.records| + if more == [] then 0 else 1
  {
  }

  lemma ParseOneMore(js: Js, clock: Clock, lines: seq<Text>, i: nat)
    requires i < |lines|
    ensures ParseLines(js, clock, lines[..i + 1])
         == AddRecord(ParseLines(js, clock, lines[..i]), ReadLine(js, clock, lines[i]))
  {
    assert lines[..i + 1][..i] == lines[..i];
  }

  method ParseJsonlLines(js: Js, clock: Clock, text: Text) returns (msgs: seq<ImportMessage>)
    ensures msgs == Parse(js, clock, text).msgs
  {
    msgs := [];
    var recIdx := 0;
    var lines := Lines(text);
    ghost var p := Parsed([], []);
    for i := 0 to |lines|
      invariant ParseLines(js, clock, lines[..i]) == p
      invariant msgs == p.msgs && recIdx == |p.records|
    {
      ParseOneMore(js, clock, lines, i);
      var rec := ReadLine(js, clock, lines[i]);
      if rec.Some? {
        Added(p, rec.value);
        p := AddRecord(p, rec);
        var pushedAny;
        msgs, pushedAny := PushFragments(rec.value, recIdx, msgs);
        if pushedAny {
          recIdx := recIdx + 1;
        }
      }
    }
    assert lines[..|lines|] == lines;
  }

  // ---- What parsing promises ----

  /** Record indices start at 0 and grow by at most one from message to message, up to the last record. */
  ghost predicate GapFree(msgs: seq<ImportMessage>, count: nat) {
    && (forall i :: 0 <= i < |msgs| ==> msgs[i].recIdx.Some? && msgs[i].recIdx.value < count)
    && (if msgs == [] then count == 0
        else msgs[0].recIdx == Some(0) && msgs[|msgs| - 1].recIdx == Some(count - 1))
    && (forall i :: 0 < i < |msgs| ==>
          msgs[i - 1].recIdx.value <= msgs[i].recIdx.value <= msgs[i - 1].recIdx.value + 1)
  }

  /** A message carries the role of its record, and is a final answer only if the record has no top-level tool call. */
  ghost predicate FromRecord(m: ImportMessage, records: seq<Record>) {
    && m.recIdx.Some? && m.recIdx.value < |records|
    && var rec := records[m.recIdx.value];
       && m.memRole == Some(rec.role)
       && (m.role == rec.role || m.role in {ToolCall, ToolResult})
       && (m.hasToolUse <==> m.role == Assistant && rec.hasTool)
  }

  /** The messages are numbered by the records they come from. */
  ghost predicate WellTagged(p: Parsed) {
    GapFree(p.msgs, |p.records|) && forall m | m in p.msgs :: FromRecord(m, p.records)
  }

  ghost predicate FragsTyped(frags: seq<Frag>) {
    forall f | f in frags :: f.role.Some? ==> f.role.value in {ToolCall, ToolResult}
  }

  lemma {:induction false} CallsTyped(js: Js, calls: seq<Json>)
    ensures CallEntries(js, calls).Some? ==> FragsTyped(CallEntries(js, calls).value)
  {
    if calls != [] {
      CallsTyped(js, calls[1..]);
    }
  }

  lemma {:induction false} BlockTyped(js: Js, b: Json)
    ensures ExpandBlock(js, b).Some? ==> FragsTyped(ExpandBlock(js, b).value)
    decreases b, 1
  {
    if b.Obj? {
      CallsTyped(js, ItemsOf(Get(b, "tool_calls")));
      CallsTyped(js, ItemsOf(Get(b, "content")));
      if Get(b, "content").Some? {
        ContentTyped(js, Get(b, "content").value);
      }
    }
  }

  lemma {:induction false} BlocksTyped(js: Js, items: seq<Json>)
    ensures ExpandBlocks(js, items).Some? ==> FragsTyped(ExpandBlocks(js, items).value)
    decreases items, 0
  {
    if items != [] {
      BlockTyped(js, items[0]);
      BlocksTyped(js, items[1..]);
    }
  }

  lemma {:induction false} ContentTyped(js: Js, content: Json)
    ensures ExpandContent(js, content).Some? ==> FragsTyped(ExpandContent(js, content).value)
    decreases content, 1
  {
    if content.Arr? {
      BlocksTyped(js, content.items);
    } else if content.Obj? && Get(content, "content").Some? {
      ContentTyped(js, Get(content, "content").value);
    }
  }

  lemma RecordTyped(js: Js, clock: Clock, line: Text)
    requires ReadLine(js, clock, line).Some?
    ensures var rec := ReadLine(js, clock, line).value; FragsTyped(rec.frags) && Spoken(rec.role)
  {
    var rec := RecordBody(js.parse(Trim(line)).value).value;
    var nested := NestedMessage(rec);
    var content := Coalesce(Get(rec, "content"), GetOpt(nested, "content"));
    if content.Some? {
      ContentTyped(js, content.value);
    }
    CallsTyped(js, ItemsOf(Coalesce(Get(rec, "tool_calls"), GetOpt(nested, "tool_calls"))));
  }

  lemma {:induction false} MessagesFromRecord(rec: Record, frags: seq<Frag>, records: seq<Record>, recIdx: nat)
    requires FragsTyped(frags) && recIdx < |records| && records[recIdx] == rec
    ensures forall m | m in MessagesOf(rec, frags, recIdx) :: m.recIdx == Some(recIdx) && FromRecord(m, records)
  {
    if frags != [] {
      var front, f := frags[..|frags| - 1], frags[|frags| - 1];
      assert f in frags && forall g | g in front :: g in frags;
      MessagesFromRecord(rec, front, records, recIdx);
      assert FromRecord(MessageOf(rec, f, recIdx), records);
    }
  }

  lemma AddRecordTags(p: Parsed, rec: Record)
    requires WellTagged(p) && FragsTyped(rec.frags)
    ensures WellTagged(AddRecord(p, Some(rec)))
  {
    var n := |p.records|;
    var records := p.records + [rec];
    var added := MessagesOf(rec, rec.frags, n);
    MessagesFromRecord(rec, rec.frags, records, n);
    if added != [] {
      forall m | m in p.msgs
        ensures FromRecord(m, records)
      {
        assert records[m.recIdx.value] == p.records[m.recIdx.value];
      }
      assert forall i :: 0 <= i < |added| ==> added[i] in added;
      AppendRun(p.msgs, added, n);
    }
  }

  /** Appending messages that all carry the next index keeps the indices gap-free. */
  lemma AppendRun(msgs: seq<ImportMessage>, added: seq<ImportMessage>, n: nat)
    requires GapFree(msgs, n) && added != []
    requires forall i :: 0 <= i < |added| ==> added[i].recIdx == Some(n)
    ensures GapFree(msgs + added, n + 1)
  {
    var all := msgs + added;
    forall i | 0 <= i < |all|
      ensures all[i].recIdx.Some? && all[i].recIdx.value < n + 1
      ensures i >= |msgs| ==> all[i].recIdx == Some(n)
    {
      assert all[i] == if i < |msgs| then msgs[i] else added[i - |msgs|];
    }
    forall i | 0 < i < |all|
      ensures all[i - 1].recIdx.value <= all[i].recIdx.value <= all[i - 1].recIdx.value + 1
    {
      if i < |msgs| {
        assert all[i] == msgs[i] && all[i - 1] == msgs[i - 1];
      }
    }
  }

  /** For every transcript the record indices are gap-free and every message agrees with its record. */
  lemma {:induction false} ParseTagsRecords(js: Js, clock: Clock, lines: seq<Text>)
    ensures var p := ParseLines(js, clock, lines);
            WellTagged(p) && forall rec | rec in p.records :: Spoken(rec.role)
  {
    if lines != [] {
      var front, line := lines[..|lines| - 1], lines[|lines| - 1];
      ParseTagsRecords(js, clock, front);
      if ReadLine(js, clock, line).Some? {
        RecordTyped(js, clock, line);
        AddRecordTags(ParseLines(js, clock, front), ReadLine(js, clock, line).value);
      }
    }
  }

  // ---- Nothing is lost or reordered ----

  /** The message says what the fragment says; a text that is kept is neither empty nor harness noise. */
  ghost predicate Carries(m: ImportMessage, rec: Record, f: Frag) {
    && m.content == f.content && m.ts == rec.ts
    && match f.role
       case None => m.role == rec.role && m.content != [] && !IsHarnessNoise(rec.role, m.content)
       case Some(role) => m.role == role && m.toolCallId == f.toolCallId && m.toolName == f.toolName
  }

  function KeptFrags(role: Role, frags: seq<Frag>): seq<Frag> {
    if frags == [] then []
    else
      var front, last := KeptFrags(role, frags[..|frags| - 1]), frags[|frags| - 1];
      if IsKept(role, last) then front + [last] else front
  }

  /** A record's messages carry its kept fragments one by one, in order. */
  lemma {:induction false} MessagesCarryFrags(rec: Record, frags: seq<Frag>, recIdx: nat)
    ensures var msgs, kept := MessagesOf(rec, frags, recIdx), KeptFrags(rec.role, frags);
            && |msgs| == |kept|
            && forall i :: 0 <= i < |msgs| ==> Carries(msgs[i], rec, kept[i])
  {
    if frags != [] {
      MessagesCarryFrags(rec, frags[..|frags| - 1], recIdx);
    }
  }

  function AllMessages(records: seq<Record>): seq<ImportMessage> {
    if records == [] then []
    else
      var n := |records| - 1;
      AllMessages(records[..n]) + MessagesOf(records[n], records[n].frags, n)
  }

  predicate Speaks(rec: Record) {
    KeptFrags(rec.role, rec.frags) != []
  }

  /** The records of the lines that are accepted and keep anything, in order. */
  function SpeakingRecords(js: Js, clock: Clock, lines: seq<Text>): seq<Record> {
    if lines == [] then []
    else
      var front, rec := SpeakingRecords(js, clock, lines[..|lines| - 1]), ReadLine(js, clock, lines[|lines| - 1]);
      if rec.Some? && Speaks(rec.value) then front + [rec.value] else front
  }

  /** The messages of a transcript are those of its speaking records, record by record. */
  lemma {:induction false} ParseLosesNothing(js: Js, clock: Clock, lines: seq<Text>)
    ensures var p := ParseLines(js, clock, lines);
            p.records == SpeakingRecords(js, clock, lines) && p.msgs == AllMessages(p.records)
  {
    if lines != [] {
      var front := lines[..|lines| - 1];
      ParseLosesNothing(js, clock, front);
      var before, rec := ParseLines(js, clock, front), ReadLine(js, clock, lines[|lines| - 1]);
      if rec.Some? {
        MessagesCarryFrags(rec.value, rec.value.frags, |before.records|);
        assert (before.records + [rec.value])[..|before.records|] == before.records;
      }
    }
  }

  /** Expanding a list of blocks expands its parts, in order. */
  lemma {:induction false} ExpandAppend(js: Js, a: seq<Json>, b: seq<Json>)
    ensures var left, right := ExpandBlocks(js, a), ExpandBlocks(js, b);
            ExpandBlocks(js, a + b)
            == if left.None? || right.None? then None else Some(left.value + right.value)
  {
    if a == [] {
      assert a + b == b;
      if ExpandBlocks(js, b).Some? {
        assert [] + ExpandBlocks(js, b).value == ExpandBlocks(js, b).value;
      }
    } else {
      assert (a + b)[1..] == a[1..] + b;
      ExpandAppend(js, a[1..], b);
      var first, rest, right := ExpandBlock(js, a[0]), ExpandBlocks(js, a[1..]), ExpandBlocks(js, b);
      if first.Some? && rest.Some? && right.Some? {
        assert first.value + (rest.value + right.value) == (first.value + rest.value) + right.value;
      }
    }
  }

  /** A block that calls a tool under this id, in one of the dialects. */
  predicate CallsAs(b: Json, id: Text) {
    || (BlockType(b) in {Lit("tool_use"), Lit("toolCall")} && Get(b, "id") == Some(Str(id)))
    || (BlockType(b) == Lit("function_call") && Get(b, "call_id") == Some(Str(id)))
  }

  /** A block that answers the call with this id. */
  predicate AnswersTo(b: Json, id: Text) {
    || (BlockType(b) == Lit("tool_result") && Get(b, "tool_use_id") == Some(Str(id)))
    || (BlockType(b) == Lit("toolResult") && Get(b, "id") == Some(Str(id)))
  }

  /** Whatever the dialects, a call and its answer give one fragment each, anchored by the same id. */
  lemma CallAndAnswerPair(js: Js, call: Json, answer: Json, id: Text)
    requires id != [] && CallsAs(call, id) && AnswersTo(answer, id)
    ensures var c, a := ExpandBlock(js, call), ExpandBlock(js, answer);
            && c.Some? && |c.value| == 1 && c.value[0].role == Some(ToolCall) && c.value[0].toolCallId == id
            && a.Some? && |a.value| == 1 && a.value[0].role == Some(ToolResult) && a.value[0].toolCallId == id
  {
    TypesDiffer();
  }

  lemma TypesDiffer()
    ensures Lit("tool_use") != Lit("toolCall")
    ensures Lit("tool_calls") != Lit("toolResult")
  {
    assert Lit("tool_use")[4] != Lit("toolCall")[4];
    assert Lit("tool_calls")[4] != Lit("toolResult")[4];
  }

  // ---- Which records have a tool call ----

  /** The object lists tool calls of its own, or has a block at the top level of its content that is one. */
  ghost predicate ShowsCall(src: Json) {
    || (exists calls :: Get(src, "tool_calls") == Some(Arr(calls)) && calls != [])
    || (exists blocks, b :: Get(src, "content") == Some(Arr(blocks)) && b in blocks && IsCallBlock(b))
  }

  ghost predicate IsCallBlock(b: Json) {
    b.Obj? && exists t :: t in ["tool_use", "toolCall", "function_call", "tool_calls"] && IsText(Get(b, "type"), t)
  }

  lemma CallBlockTypes(b: Json)
    ensures IsCallBlock(b) <==> b.Obj? && IsToolCallType(BlockType(b))
  {
    if b.Obj? && IsToolCallType(BlockType(b)) {
      var t := if BlockType(b) == Lit("tool_use") then "tool_use"
               else if BlockType(b) == Lit("toolCall") then "toolCall"
               else if BlockType(b) == Lit("function_call") then "function_call" else "tool_calls";
      assert BlockType(b) != [];
      assert IsText(Get(b, "type"), t) && t in ["tool_use", "toolCall", "function_call", "tool_calls"];
    }
  }

  lemma HasToolUseIff(src: Json)
    ensures HasToolUse(src) <==> ShowsCall(src)
  {
    forall b | b in ItemsOf(Get(src, "content"))
      ensures IsCallBlock(b) <==> b.Obj? && IsToolCallType(BlockType(b))
    {
      CallBlockTypes(b);
    }
    if ShowsCall(src) && !(exists calls :: Get(src, "tool_calls") == Some(Arr(calls)) && calls != []) {
      var blocks, b :| Get(src, "content") == Some(Arr(blocks)) && b in blocks && IsCallBlock(b);
      assert b in ItemsOf(Get(src, "content"));
    }
  }

  /** The value of the message field, when that is an object. */
  ghost predicate HasMessage(rec: Json, message: Json) {
    Get(rec, "message") == Some(message) && (message.Obj? || message.Arr?)
  }

  /** A record counts as having a tool call exactly when it shows one itself or in its message. */
  lemma HasToolIff(js: Js, clock: Clock, obj: Json)
    requires ReadRecord(js, clock, obj).Some?
    ensures RecordBody(obj).Some?
    ensures ReadRecord(js, clock, obj).value.hasTool
       <==> var rec := RecordBody(obj).value;
            ShowsCall(rec) || exists message :: HasMessage(rec, message) && ShowsCall(message)
  {
    var rec := RecordBody(obj).value;
    HasToolUseIff(rec);
    if NestedMessage(rec).Some? {
      HasToolUseIff(NestedMessage(rec).value);
      assert HasMessage(rec, NestedMessage(rec).value);
    }
  }

  /** A call at the top level of the content that is read, or among the calls that are read, is never missed. */
  lemma ReadCallIsSeen(js: Js, clock: Clock, obj: Json)
    requires ReadRecord(js, clock, obj).Some?
    requires var rec := RecordBody(obj).value;
             var content := Coalesce(Get(rec, "content"), GetOpt(NestedMessage(rec), "content"));
             var calls := Coalesce(Get(rec, "tool_calls"), GetOpt(NestedMessage(rec), "tool_calls"));
             || (exists b :: b in ItemsOf(content) && IsCallBlock(b))
             || ItemsOf(calls) != []
    ensures ReadRecord(js, clock, obj).value.hasTool
  {
    var rec := RecordBody(obj).value;
    var content := Coalesce(Get(rec, "content"), GetOpt(NestedMessage(rec), "content"));
    if exists b :: b in ItemsOf(content) && IsCallBlock(b) {
      var b :| b in ItemsOf(content) && IsCallBlock(b);
      CallBlockTypes(b);
    }
  }

  // ---- One line among the others ----

  lemma ParseSnoc(js: Js, clock: Clock, lines: seq<Text>, line: Text)
    ensures ParseLines(js, clock, lines + [line]) == AddRecord(ParseLines(js, clock, lines), ReadLine(js, clock, line))
  {
    assert (lines + [line])[..|lines|] == lines;
  }

  lemma {:induction false} ParseGrows(js: Js, clock: Clock, lines: seq<Text>, more: seq<Text>)
    ensures ParseLines(js, clock, lines).msgs <= ParseLines(js, clock, lines + more).msgs
    decreases |more|
  {
    if more == [] {
      assert lines + more == lines;
    } else {
      var n := |more| - 1;
      ParseGrows(js, clock, lines, more[..n]);
      ParseSnoc(js, clock, lines + more[..n], more[n]);
      assert lines + more[..n] + [more[n]] == lines + more;
    }
  }

  /** The messages a line adds, after those of the lines before it. */
  function LineMessages(js: Js, clock: Clock, before: seq<Text>, line: Text): seq<ImportMessage> {
    var rec := ReadLine(js, clock, line);
    if rec.None? then [] else MessagesOf(rec.value, rec.value.frags, |ParseLines(js, clock, before).records|)
  }

  lemma LineInTranscript(js: Js, clock: Clock, before: seq<Text>, line: Text, after: seq<Text>)
    ensures ParseLines(js, clock, before).msgs + LineMessages(js, clock, before, line)
         <= ParseLines(js, clock, before + [line] + after).msgs
  {
    ParseSnoc(js, clock, before, line);
    ParseGrows(js, clock, before + [line], after);
    if ReadLine(js, clock, line).Some? {
      Added(ParseLines(js, clock, before), ReadLine(js, clock, line).value);
    } else {
      assert ParseLines(js, clock, before).msgs + [] == ParseLines(js, clock, before).msgs;
    }
  }
}
