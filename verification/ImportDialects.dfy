/**
 * The dialects of a transcript say the same: how tool calls, tool results, text and whole records are spelled does not
 * change what is read from them (agents/asset-import.ts:220-447).
 */
module ImportDialects {
  import opened JsText
  import opened JsValue
  import opened TextLines
  import opened ImportModel
  import opened ImportParse

  lemma TypesApart()
    ensures Lit("tool_use") != Lit("toolCall") && Lit("tool_calls") != Lit("toolResult")
    ensures Lit("function_call") != Lit("tool_result")
  {
    TypesDiffer();
  }

  /** The first of these properties that is a string and not empty, or the empty string. */
  function FirstText(b: Json, keys: seq<string>): Text {
    if keys == [] then []
    else
      match Get(b, keys[0])
      case Some(Str(s)) => if s != [] then s else FirstText(b, keys[1..])
      case _ => FirstText(b, keys[1..])
  }

  /** The first of these properties that is there and not null. */
  function FirstGiven(b: Json, keys: seq<string>): Option<Json> {
    if keys == [] then None
    else
      match Get(b, keys[0])
      case None => FirstGiven(b, keys[1..])
      case Some(Null) => FirstGiven(b, keys[1..])
      case Some(x) => Some(x)
  }

  lemma FirstTexts(b: Json, k1: string, k2: string, k3: string)
    ensures FirstText(b, [k1]) == StrVal(Get(b, k1))
    ensures FirstText(b, [k1, k2]) == OrElse(StrVal(Get(b, k1)), StrVal(Get(b, k2)))
    ensures FirstText(b, [k1, k2, k3])
         == OrElse(OrElse(StrVal(Get(b, k1)), StrVal(Get(b, k2))), StrVal(Get(b, k3)))
  {
    assert [k1, k2, k3][1..] == [k2, k3] && [k2, k3][1..] == [k3] && [k1, k2][1..] == [k2];
    forall k
      ensures FirstText(b, [k]) == StrVal(Get(b, k))
    {
      assert [k][1..] == [];
    }
    assert FirstText(b, [k2, k3]) == OrElse(StrVal(Get(b, k2)), StrVal(Get(b, k3)));
  }

  // ---- Tool calls ----

  /** A call's text stands for its arguments. */
  ghost predicate ArgText(js: Js, args: Option<Json>, text: Text) {
    match args
    case None => text == []
    case Some(Str(s)) => text == s
    case Some(x) => text == js.stringify(x)
  }

  /** Arguments given as a string are kept as they are; all others can be parsed back from the text. */
  lemma ArgumentsReadBack(js: Js, args: Json, text: Text)
    requires js.Valid() && args != Null && ArgText(js, Some(args), text)
    ensures args.Str? ==> text == args.s
    ensures !args.Str? ==> js.parse(text) == Some(js.Reprint(args))
  {
  }

  /** An entry of a tool_calls list, with its name and arguments in a function object or beside its id. */
  ghost predicate Entry(tc: Json, id: Text, name: Text, args: Option<Json>) {
    && !tc.Null? && id == FirstText(tc, ["id"])
    && var fn := if FirstGiven(tc, ["function"]).Some? then FirstGiven(tc, ["function"]).value else tc;
       name == FirstText(fn, ["name"]) && args == FirstGiven(fn, ["arguments"])
  }

  /** A block that calls the tool of this name with these arguments under this id, in one of the dialects. */
  ghost predicate Call(b: Json, id: Text, name: Text, args: Option<Json>) {
    || (IsText(Get(b, "type"), "tool_use")
        && id == FirstText(b, ["id"]) && name == FirstText(b, ["name"]) && args == FirstGiven(b, ["input", "arguments"]))
    || (IsText(Get(b, "type"), "toolCall")
        && id == FirstText(b, ["id"]) && name == FirstText(b, ["name"]) && args == FirstGiven(b, ["arguments", "input"]))
    || (IsText(Get(b, "type"), "function_call")
        && id == FirstText(b, ["call_id", "id"]) && name == FirstText(b, ["name"])
        && args == FirstGiven(b, ["arguments"]))
    || (IsText(Get(b, "type"), "tool_calls")
        && exists tc :: Get(b, "tool_calls") == Some(Arr([tc])) && Entry(tc, id, name, args))
    || (IsText(Get(b, "type"), "tool_calls") && (Get(b, "tool_calls").Some? ==> !Get(b, "tool_calls").value.Arr?)
        && exists tc :: Get(b, "content") == Some(Arr([tc])) && Entry(tc, id, name, args))
  }

  /** The one fragment of a call; a call without a name is one of "unknown". */
  ghost predicate IsCallFrag(js: Js, frags: Option<seq<Frag>>, id: Text, name: Text, args: Option<Json>) {
    && frags.Some? && |frags.value| == 1
    && var f := frags.value[0];
       && f.role == Some(ToolCall) && f.toolCallId == id && ArgText(js, args, f.content)
       && f.toolName == if name == [] then Lit("unknown") else name
  }

  lemma GivenArgs(js: Js, b: Json, k1: string, k2: string)
    ensures ArgText(js, FirstGiven(b, [k1]), ArgsToString(js, Get(b, k1)))
    ensures ArgText(js, FirstGiven(b, [k1, k2]), ArgsToString(js, Coalesce(Get(b, k1), Get(b, k2))))
  {
    assert [k1, k2][1..] == [k2];
    OneGiven(b, k1);
    OneGiven(b, k2);
  }

  lemma OneGiven(b: Json, k: string)
    ensures FirstGiven(b, [k]) == if Get(b, k) == Some(Null) then None else Get(b, k)
  {
    assert [k][1..] == [];
  }

  lemma EntryFrag(js: Js, tc: Json, id: Text, name: Text, args: Option<Json>)
    requires Entry(tc, id, name, args)
    ensures CallEntry(js, tc).Some? && IsCallFrag(js, Some([CallEntry(js, tc).value]), id, name, args)
    ensures IsCallFrag(js, CallEntries(js, [tc]), id, name, args)
  {
    OneGiven(tc, "function");
    var fn := if FirstGiven(tc, ["function"]).Some? then FirstGiven(tc, ["function"]).value else tc;
    FirstTexts(tc, "id", "id", "id");
    FirstTexts(fn, "name", "name", "name");
    GivenArgs(js, fn, "arguments", "arguments");
    assert [tc][1..] == [];
  }

  lemma UseFrag(js: Js, b: Json)
    requires b.Obj? && BlockType(b) in {Lit("tool_use"), Lit("toolCall")}
    ensures IsCallFrag(js, ExpandBlock(js, b), FirstText(b, ["id"]), FirstText(b, ["name"]),
                       FirstGiven(b, if BlockType(b) == Lit("tool_use") then ["input", "arguments"]
                                     else ["arguments", "input"]))
  {
    TypesApart();
    FirstTexts(b, "id", "id", "id");
    FirstTexts(b, "name", "name", "name");
    GivenArgs(js, b, "input", "arguments");
    GivenArgs(js, b, "arguments", "input");
  }

  lemma FunctionFrag(js: Js, b: Json)
    requires b.Obj? && BlockType(b) == Lit("function_call")
    ensures IsCallFrag(js, ExpandBlock(js, b), FirstText(b, ["call_id", "id"]), FirstText(b, ["name"]),
                       FirstGiven(b, ["arguments"]))
  {
    FirstTexts(b, "call_id", "id", "id");
    FirstTexts(b, "name", "name", "name");
    GivenArgs(js, b, "arguments", "arguments");
  }

  lemma ListFrag(js: Js, b: Json)
    requires b.Obj? && BlockType(b) == Lit("tool_calls")
    ensures ExpandBlock(js, b)
         == CallEntries(js, if Get(b, "tool_calls").Some? && Get(b, "tool_calls").value.Arr?
                            then ItemsOf(Get(b, "tool_calls")) else ItemsOf(Get(b, "content")))
  {
    TypesApart();
  }

  /** Whatever the dialect, a call gives one fragment with its id, its name and its arguments. */
  lemma CallDialects(js: Js, b: Json, id: Text, name: Text, args: Option<Json>)
    requires Call(b, id, name, args)
    ensures IsCallFrag(js, ExpandBlock(js, b), id, name, args)
  {
    TypesApart();
    if BlockType(b) == Lit("function_call") {
      FunctionFrag(js, b);
    } else if BlockType(b) == Lit("tool_calls") {
      ListFrag(js, b);
      if exists tc :: Get(b, "tool_calls") == Some(Arr([tc])) && Entry(tc, id, name, args) {
        var tc :| Get(b, "tool_calls") == Some(Arr([tc])) && Entry(tc, id, name, args);
        EntryFrag(js, tc, id, name, args);
      } else {
        var tc :| Get(b, "content") == Some(Arr([tc])) && Entry(tc, id, name, args);
        EntryFrag(js, tc, id, name, args);
      }
    } else {
      UseFrag(js, b);
    }
  }

  /** A list of calls gives one fragment for each, in order; it throws exactly when one of them is null. */
  lemma {:induction false} EntriesEach(js: Js, calls: seq<Json>)
    ensures CallEntries(js, calls).None? <==> Null in calls
    ensures CallEntries(js, calls).Some? ==>
              var frags := CallEntries(js, calls).value;
              |frags| == |calls| && forall i :: 0 <= i < |calls| ==> CallEntry(js, calls[i]) == Some(frags[i])
  {
    if calls != [] {
      EntriesEach(js, calls[1..]);
      assert calls == [calls[0]] + calls[1..];
      assert CallEntry(js, calls[0]).None? <==> calls[0] == Null;
    }
  }

  // ---- Tool results ----

  /** A block that answers the call with this id, in one of the dialects. */
  ghost predicate Answer(b: Json, id: Text, name: Text) {
    && name == FirstText(b, ["toolName", "name"])
    && ((IsText(Get(b, "type"), "tool_result") && id == FirstText(b, ["tool_use_id", "tool_call_id", "id"]))
        || (IsText(Get(b, "type"), "toolResult") && id == FirstText(b, ["id", "callId", "toolCallId"])))
  }

  /** Whatever the dialect, an answer gives one fragment with the call's id, the tool's name and the content's text. */
  lemma AnswerDialects(js: Js, b: Json, id: Text, name: Text)
    requires Answer(b, id, name)
    ensures ExpandBlock(js, b) == Some([Frag(Some(ToolResult), OptBlockText(Get(b, "content")), id, name)])
  {
    TypesApart();
    FirstTexts(b, "toolName", "name", "name");
    FirstTexts(b, "tool_use_id", "tool_call_id", "id");
    FirstTexts(b, "id", "callId", "toolCallId");
  }

  /** The part of a result that is this text: a string, or an object with it as its text and no content of its own. */
  predicate IsPart(b: Json, t: Text) {
    b == Str(t) || (Get(b, "content").None? && Get(b, "text") == Some(Str(t)))
  }

  lemma {:induction false} PartTexts(parts: seq<Json>, texts: seq<Text>)
    requires |parts| == |texts| && forall i :: 0 <= i < |parts| ==> IsPart(parts[i], texts[i])
    ensures BlockTexts(parts) == texts
  {
    if parts != [] {
      PartTexts(parts[1..], texts[1..]);
      assert BlockText(parts[0]) == texts[0];
    }
  }

  /** A result's text: its parts that say something, line by line, however deep they are wrapped. */
  lemma ResultText(parts: seq<Json>, texts: seq<Text>, wrapper: Json)
    requires |parts| == |texts| && forall i :: 0 <= i < |parts| ==> IsPart(parts[i], texts[i])
    ensures BlockText(Arr(parts)) == Join(NonEmpty(texts), [NEWLINE])
    ensures forall t | IsPart(wrapper, t) :: BlockText(wrapper) == t
    ensures Get(wrapper, "content").Some? ==> BlockText(wrapper) == BlockText(Get(wrapper, "content").value)
    ensures wrapper.Null? || wrapper.Bool? || wrapper.Num? ==> BlockText(wrapper) == []
    ensures OptBlockText(Some(wrapper)) == BlockText(wrapper) && OptBlockText(None) == []
  {
    PartTexts(parts, texts);
  }

  // ---- Text and other content ----

  /** A block that is neither a call nor a result, by its type. */
  ghost predicate Plain(b: Json) {
    !exists t :: t in ["toolCall", "tool_use", "function_call", "tool_calls", "tool_result", "toolResult"]
                 && IsText(Get(b, "type"), t)
  }

  lemma PlainType(b: Json)
    requires Plain(b)
    ensures BlockType(b) !in {Lit("toolCall"), Lit("tool_use"), Lit("function_call"), Lit("tool_calls"),
                              Lit("tool_result"), Lit("toolResult")}
  {
    if Get(b, "type").Some? && Get(b, "type").value.Str? {
      var names := ["toolCall", "tool_use", "function_call", "tool_calls", "tool_result", "toolResult"];
      assert names[0] in names && names[1] in names && names[2] in names;
      assert names[3] in names && names[4] in names && names[5] in names;
      assert !IsText(Get(b, "type"), names[0]) && !IsText(Get(b, "type"), names[1]);
      assert !IsText(Get(b, "type"), names[2]) && !IsText(Get(b, "type"), names[3]);
      assert !IsText(Get(b, "type"), names[4]) && !IsText(Get(b, "type"), names[5]);
    }
  }

  /** Every other block gives its text, or else what its content gives, or nothing. */
  lemma PlainBlock(js: Js, b: Json)
    requires Plain(b)
    ensures forall t | b == Str(t) || Get(b, "text") == Some(Str(t)) :: ExpandBlock(js, b) == Some([TextFrag(t)])
    ensures (forall t :: b != Str(t) && Get(b, "text") != Some(Str(t))) ==>
              ExpandBlock(js, b)
              == if Get(b, "content").Some? then ExpandContent(js, Get(b, "content").value) else Some([])
  {
    PlainType(b);
    if b.Obj? && Get(b, "text").Some? && Get(b, "text").value.Str? {
      assert Get(b, "text") == Some(Str(Get(b, "text").value.s));
    } else if b.Str? {
      assert b == Str(b.s);
    }
  }

  /** A content value: a string, a list of blocks, or an object around another content value; nothing else speaks. */
  lemma ContentForms(js: Js, content: Json)
    ensures forall t | content == Str(t) :: ExpandContent(js, content) == Some([TextFrag(t)])
    ensures forall b | content == Arr([b]) :: ExpandContent(js, content) == ExpandBlock(js, b)
    ensures content == Arr([]) ==> ExpandContent(js, content) == Some([])
    ensures forall inner | Get(content, "content") == Some(inner) ::
              ExpandContent(js, content) == ExpandContent(js, inner)
    ensures !content.Str? && !content.Arr? && Get(content, "content").None? ==> ExpandContent(js, content) == Some([])
  {
    forall b | content == Arr([b])
      ensures ExpandContent(js, content) == ExpandBlock(js, b)
    {
      OneBlockAlone(js, b);
    }
  }

  lemma OneBlockAlone(js: Js, b: Json)
    ensures ExpandBlocks(js, [b]) == ExpandBlock(js, b)
  {
    assert [b][1..] == [] && ExpandBlocks(js, []) == Some([]);
    if ExpandBlock(js, b).Some? {
      assert ExpandBlock(js, b).value + [] == ExpandBlock(js, b).value;
    }
  }

  // ---- Whole records ----

  /** What a record says, whatever time it carries. */
  ghost predicate SaysTheSame(a: Option<Record>, b: Option<Record>) {
    && (a.Some? <==> b.Some?)
    && (a.Some? ==> a.value.role == b.value.role && a.value.hasTool == b.value.hasTool && a.value.frags == b.value.frags)
  }

  /** A message as such: it has a role and no message inside; its type, if it has one, is message. */
  ghost predicate Bare(message: Json) {
    && message.Obj? && Get(message, "role").Some? && Get(message, "role").value.Str?
    && (Get(message, "type").None? || IsText(Get(message, "type"), "message")) && NestedMessage(message).None?
  }

  function Wrapped(kind: Text, field: string, message: Json): Json {
    Obj(map["type" := Str(kind), field := message])
  }

  predicate SkippedKind(kind: Text) {
    kind in {Lit("event_msg"), Lit("session_meta"), Lit("turn_context"), Lit("world_state")}
  }

  lemma KindsApart()
    ensures Lit("response_item") !in {Lit("event_msg"), Lit("session_meta"), Lit("turn_context"), Lit("world_state")}
  {
    assert Lit("response_item")[0] == 114 && Lit("event_msg")[0] == 101 && Lit("session_meta")[0] == 115;
    assert Lit("turn_context")[0] == 116 && Lit("world_state")[0] == 119;
  }

  lemma BareRecord(js: Js, clock: Clock, message: Json)
    requires Bare(message)
    ensures RecordBody(message) == Some(message)
    ensures RoleText(message, None) == Get(message, "role").value.s
  {
    assert Lit("message")[0] == 109 && Lit("event_msg")[0] == 101 && Lit("session_meta")[0] == 115;
    assert Lit("turn_context")[0] == 116 && Lit("world_state")[0] == 119 && Lit("response_item")[0] == 114;
  }

  /** A message inside a record of some kind says what it says on its own line. */
  lemma MessageInRecord(js: Js, clock: Clock, kind: Text, message: Json)
    requires Bare(message) && !SkippedKind(kind) && kind != Lit("response_item")
    ensures SaysTheSame(ReadRecord(js, clock, Wrapped(kind, "message", message)), ReadRecord(js, clock, message))
  {
    BareRecord(js, clock, message);
    var rec := Wrapped(kind, "message", message);
    assert Get(rec, "type") == Some(Str(kind)) && Get(rec, "message") == Some(message);
    assert Get(rec, "role").None? && Get(rec, "content").None? && Get(rec, "tool_calls").None?;
    assert RecordBody(rec) == Some(rec) && NestedMessage(rec) == Some(message);
    assert !HasToolUse(rec);
  }

  /** A message that is the payload of a response item says what it says on its own line. */
  lemma MessageInPayload(js: Js, clock: Clock, message: Json)
    requires Bare(message)
    ensures SaysTheSame(ReadRecord(js, clock, Wrapped(Lit("response_item"), "payload", message)),
                        ReadRecord(js, clock, message))
  {
    KindsApart();
    BareRecord(js, clock, message);
    var rec := Wrapped(Lit("response_item"), "payload", message);
    assert Get(rec, "type") == Some(Str(Lit("response_item"))) && Get(rec, "payload") == Some(message);
    assert RecordBody(rec) == Some(message);
  }

  /** A response item whose payload is no object is read as it stands. */
  lemma ItemWithoutPayload(obj: Json)
    requires IsText(Get(obj, "type"), "response_item")
    requires Get(obj, "payload").Some? ==> !Get(obj, "payload").value.Obj? && !Get(obj, "payload").value.Arr?
    ensures RecordBody(obj) == Some(obj)
  {
    KindsApart();
  }

  /** Records of these kinds are skipped, and so is a response item of another type than message. */
  lemma SkippedRecords(js: Js, clock: Clock, obj: Json)
    ensures (exists kind :: Get(obj, "type") == Some(Str(kind)) && SkippedKind(kind)) ==>
              ReadRecord(js, clock, obj).None?
    ensures IsText(Get(obj, "type"), "response_item")
            && (exists payload, t :: Get(obj, "payload") == Some(payload) && payload.Obj?
                  && Get(payload, "type") == Some(Str(t)) && t != [] && t != Lit("message")) ==>
              ReadRecord(js, clock, obj).None?
  {
    KindsApart();
  }

  /** Reading a message throws: at a null where a call is looked for, in its content or among its calls. */
  ghost predicate Throws(js: Js, message: Json) {
    || (exists content :: FirstGiven(message, ["content"]) == Some(content) && ExpandContent(js, content).None?)
    || (exists calls :: FirstGiven(message, ["tool_calls"]) == Some(Arr(calls)) && Null in calls)
  }

  /**
   * Who speaks: the assistant, or the user, to whose turn tool output belongs. Every other role is skipped, and so is
   * a message whose reading throws.
   */
  lemma BareSpeakers(js: Js, clock: Clock, message: Json)
    requires Bare(message)
    ensures var rec, role := ReadRecord(js, clock, message), Get(message, "role").value.s;
            && (rec.None? <==>
                  role !in {Lit("assistant"), Lit("user"), Lit("tool"), Lit("toolResult")} || Throws(js, message))
            && (rec.Some? ==> rec.value.role == if role == Lit("assistant") then Assistant else User)
  {
    BareRecord(js, clock, message);
    assert Lit("assistant") !in {Lit("user"), Lit("tool"), Lit("toolResult")};
    OneGiven(message, "content");
    OneGiven(message, "tool_calls");
    EntriesEach(js, ItemsOf(Get(message, "tool_calls")));
  }

  /** A record without a role speaks by its type, as the user or the assistant; any other type is skipped. */
  lemma TypedSpeakers(js: Js, clock: Clock, rec: Json)
    requires RecordBody(rec) == Some(rec) && NestedMessage(rec).None?
    requires Get(rec, "role").Some? ==> !Get(rec, "role").value.Str?
    ensures var said := ReadRecord(js, clock, rec);
            && (said.None? <==>
                  !(IsText(Get(rec, "type"), "user") || IsText(Get(rec, "type"), "assistant")) || Throws(js, rec))
            && (said.Some? ==> said.value.role == if IsText(Get(rec, "type"), "assistant") then Assistant else User)
  {
    assert Lit("assistant") !in {Lit("user"), Lit("tool"), Lit("toolResult")};
    assert Lit("user") != [] && Lit("assistant") != [];
    OneGiven(rec, "content");
    OneGiven(rec, "tool_calls");
    EntriesEach(js, ItemsOf(Get(rec, "tool_calls")));
  }

  /** What a bare message says: the fragments of its content, then those of its calls. */
  lemma BareSays(js: Js, clock: Clock, message: Json, frags: seq<Frag>, calls: seq<Json>)
    requires Bare(message) && ReadRecord(js, clock, message).Some?
    requires forall content | FirstGiven(message, ["content"]) == Some(content) ::
               ExpandContent(js, content) == Some(frags)
    requires FirstGiven(message, ["content"]).None? ==> frags == []
    requires FirstGiven(message, ["tool_calls"]) == Some(Arr(calls))
             || (calls == [] && forall cs :: FirstGiven(message, ["tool_calls"]) != Some(Arr(cs)))
    ensures CallEntries(js, calls).Some?
    ensures ReadRecord(js, clock, message).value.frags == frags + CallEntries(js, calls).value
  {
    BareRecord(js, clock, message);
    OneGiven(message, "content");
    OneGiven(message, "tool_calls");
    assert ItemsOf(Get(message, "tool_calls")) == calls by {
      if Get(message, "tool_calls").Some? && Get(message, "tool_calls").value.Arr? {
        assert FirstGiven(message, ["tool_calls"]) == Some(Arr(Get(message, "tool_calls").value.items));
      }
    }
  }

  // ---- Lines ----

  /** Whitespace around a line changes nothing, and a line without JSON adds nothing. */
  lemma LineAsRead(js: Js, clock: Clock, pre: Text, line: Text, post: Text)
    requires IsBlank(pre) && IsBlank(post)
    requires line != [] && !IsWhitespace(line[0]) && !IsWhitespace(line[|line| - 1])
    ensures ReadLine(js, clock, pre + line + post)
         == if js.parse(line).None? then None else ReadRecord(js, clock, js.parse(line).value)
    ensures ReadLine(js, clock, pre) == None
  {
    TrimBoth(pre, line, post);
    TrimBlank(pre);
  }

  // ---- Harness noise ----

  /** The text begins, after whitespace, with one of the marks of text that the harness put in. */
  ghost predicate Marked(content: Text) {
    exists pre: Text, mark: Text, post: Text ::
      && content == pre + mark + post && IsBlank(pre)
      && mark in {Lit("<environment_context>"), Lit("<permissions"), Lit("<plugins_instructions>"),
                  Lit("<skills_instructions>"), Lit("<turn_aborted>"), Lit("# AGENTS.md instructions"),
                  Lit("<system-reminder>"), Lit("Current runtime context")}
  }

  lemma MarkedIsNoise(role: Role, content: Text)
    requires Marked(content)
    ensures IsHarnessNoise(role, content)
  {
    var pre: Text, mark: Text, post: Text :| content == pre + mark + post && IsBlank(pre) && mark in NOISE;
    MarksVisible(mark);
    MarkStays(pre, mark, post);
  }

  lemma MarksVisible(mark: Text)
    requires mark in NOISE
    ensures mark != [] && !IsWhitespace(mark[0])
  {
    assert mark[0] in {60, 35, 67};
  }

  lemma MarkStays(pre: Text, mark: Text, post: Text)
    requires IsBlank(pre) && mark != [] && !IsWhitespace(mark[0])
    ensures StartsWith(TrimStart(pre + mark + post), mark)
  {
    assert pre + mark + post == pre + (mark + post);
    TrimStartPast(pre, mark + post);
  }

  lemma NoiseIsMarked(content: Text, p: Text)
    requires p in NOISE && StartsWith(TrimStart(content), p)
    ensures Marked(content)
  {
    var pre := LeadingBlank(content);
    Regrouped(pre, p, TrimStart(content));
  }

  lemma Regrouped(pre: Text, p: Text, t: Text)
    requires StartsWith(t, p)
    ensures pre + t == pre + p + t[|p|..]
  {
  }

  /** Text is dropped as noise exactly when a developer or the system says it, or it is marked so. */
  lemma NoiseIff(role: Role, content: Text)
    ensures IsHarnessNoise(role, content)
       <==> role == Other(Lit("developer")) || role == Other(Lit("system")) || Marked(content)
  {
    if Marked(content) {
      MarkedIsNoise(role, content);
    } else if role !in {Other(Lit("developer")), Other(Lit("system"))} && IsHarnessNoise(role, content) {
      var p :| p in NOISE && StartsWith(TrimStart(content), p);
      NoiseIsMarked(content, p);
    }
  }

  lemma {:induction false} LeadingBlank(s: Text) returns (pre: Text)
    ensures IsBlank(pre) && s == pre + TrimStart(s)
  {
    if s != [] && IsWhitespace(s[0]) {
      var rest := LeadingBlank(s[1..]);
      pre := [s[0]] + rest;
    } else {
      pre := [];
    }
  }
}
