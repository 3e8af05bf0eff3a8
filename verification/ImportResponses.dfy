/**
 * Sessions kept as one JSON document: a list of items, each with its own role (agents/asset-import.ts:468-534). They
 * share the record numbering of the line format, but judge tool calls by the expanded fragments.
 */
module ImportResponses {
  import opened JsText
  import opened JsValue
  import opened ImportModel
  import opened ImportParse
  import opened ImportDialects
  import opened ImportUpload
  import opened ImportMemory

  function RoleOf(t: Text): Role {
    if t == Lit("user") then User
    else if t == Lit("assistant") then Assistant
    else if t == Lit("tool_call") then ToolCall
    else if t == Lit("tool_result") then ToolResult
    else Other(t)
  }

  /** The item's role, or its type when it has none and is no function call. */
  function ItemRole(it: Json): Text {
    var role, kind := Get(it, "role"), StrVal(Get(it, "type"));
    if role.Some? && role.value.Str? then role.value.s
    else if kind != Lit("function_call") then kind
    else []
  }

  predicate IsToolRole(role: Text) {
    role in {Lit("tool"), Lit("toolResult"), Lit("tool_result")}
  }

  /** The fragments of the item itself, before its tool_calls. */
  function OwnFrags(js: Js, it: Json): Option<seq<Frag>> {
    var content, text := Get(it, "content"), Get(it, "text");
    if StrVal(Get(it, "type")) == Lit("function_call") then ExpandBlock(js, it)
    else if IsToolRole(ItemRole(it)) then
      Some([Frag(Some(ToolResult), OptBlockText(content),
                 StrVal(Coalesce(Get(it, "tool_call_id"), Get(it, "toolCallId"))),
                 StrVal(Coalesce(Get(it, "name"), Get(it, "toolName"))))])
    else if content.Some? && content.value.Arr? then ExpandContent(js, content.value)
    else if content.Some? && content.value.Str? then Some([TextFrag(content.value.s)])
    else if text.Some? && text.value.Str? then Some([TextFrag(text.value.s)])
    else Some([])
  }

  predicate HasCall(frags: seq<Frag>) {
    exists f | f in frags :: f.role == Some(ToolCall)
  }

  /** The role the item's messages get: tool output is the user's, an item without a role the assistant's. */
  function OutRole(role: Text): Role {
    if role == Lit("tool") || role == Lit("toolResult") then User
    else if role == [] then Assistant
    else RoleOf(role)
  }

  /** Expanding an item may throw, and then the whole document is not read. */
  function ReadItem(js: Js, it: Json): Option<Record> {
    var own, calls := OwnFrags(js, it), CallEntries(js, ItemsOf(Get(it, "tool_calls")));
    if own.None? || calls.None? then None
    else
      var frags := own.value + calls.value;
      Some(Record(OutRole(ItemRole(it)), HasCall(frags), frags, None))
  }

  predicate IsItem(it: Json) {
    it.Obj? || it.Arr?
  }

  function ReadItems(js: Js, items: seq<Json>): Option<Parsed> {
    if items == [] then Some(Parsed([], []))
    else
      var before, it := ReadItems(js, items[..|items| - 1]), items[|items| - 1];
      if before.None? || !IsItem(it) then before
      else if ReadItem(js, it).None? then None
      else Some(AddRecord(before.value, ReadItem(js, it)))
  }

  /** Where the items of a document are; a file that is no JSON has none. */
  function DocumentItems(js: Js, text: Text): seq<Json> {
    match js.parse(text)
    case None => []
    case Some(obj) =>
      ItemsOf(Coalesce(Coalesce(Get(obj, "input"), Get(obj, "messages")), GetOpt(Get(obj, "response"), "output")))
  }

  lemma {:induction false} ThrowingPrefix(js: Js, items: seq<Json>, n: nat)
    requires n <= |items| && ReadItems(js, items[..n]).None?
    ensures ReadItems(js, items).None?
  {
    if n < |items| {
      assert items[..|items| - 1][..n] == items[..n];
      ThrowingPrefix(js, items[..|items| - 1], n);
    } else {
      assert items[..n] == items;
    }
  }

  lemma ReadOneMore(js: Js, items: seq<Json>, i: nat)
    requires i < |items|
    ensures var before, it := ReadItems(js, items[..i]), items[i];
            ReadItems(js, items[..i + 1])
            == if before.None? || !IsItem(it) then before
               else if ReadItem(js, it).None? then None
               else Some(AddRecord(before.value, ReadItem(js, it)))
  {
    assert items[..i + 1][..i] == items[..i];
  }

  /** None when the expansion of an item throws. */
  method NormalizeResponsesJson(js: Js, text: Text) returns (msgs: Option<seq<ImportMessage>>)
    ensures var p := ReadItems(js, DocumentItems(js, text));
            msgs == if p.None? then None else Some(p.value.msgs)
  {
    var out: seq<ImportMessage> := [];
    var recIdx := 0;
    var items := DocumentItems(js, text);
    ghost var p := Parsed([], []);
    for i := 0 to |items|
      invariant ReadItems(js, items[..i]) == Some(p)
      invariant out == p.msgs && recIdx == |p.records|
    {
      ReadOneMore(js, items, i);
      if IsItem(items[i]) {
        var rec := ReadItem(js, items[i]);
        if rec.None? {
          ThrowingPrefix(js, items, i + 1);
          return None;
        }
        Added(p, rec.value);
        p := AddRecord(p, rec);
        var pushed;
        out, pushed := PushFragments(rec.value, recIdx, out);
        if pushed {
          recIdx := recIdx + 1;
        }
      }
    }
    assert items[..|items|] == items;
    msgs := Some(out);
  }

  // ---- Where the items are and what each one says ----

  /** The items of a document: its input, or else its messages, or else the output of its response. */
  lemma ItemsOfDocument(js: Js, text: Text, obj: Json, items: seq<Json>)
    requires js.parse(text) == Some(obj)
    ensures FirstGiven(obj, ["input", "messages"]) == Some(Arr(items)) ==> DocumentItems(js, text) == items
    ensures FirstGiven(obj, ["input", "messages"]).None?
            && (exists r :: Get(obj, "response") == Some(r) && Get(r, "output") == Some(Arr(items))) ==>
              DocumentItems(js, text) == items
  {
    assert ["input", "messages"][1..] == ["messages"];
    OneGiven(obj, "input");
    OneGiven(obj, "messages");
  }

  /** The item carries no calls beside its content. */
  ghost predicate NoCallsBeside(it: Json) {
    Get(it, "tool_calls").Some? ==> !Get(it, "tool_calls").value.Arr?
  }

  lemma NothingBeside(js: Js, it: Json)
    requires NoCallsBeside(it)
    ensures CallEntries(js, ItemsOf(Get(it, "tool_calls"))) == Some([])
  {
  }

  /** The item with its calls beside its content. */
  lemma CallsBeside(js: Js, it: Json, calls: seq<Json>)
    requires Get(it, "tool_calls") == Some(Arr(calls)) && ReadItem(js, it).Some?
    ensures Null !in calls
    ensures var frags, own := ReadItem(js, it).value.frags, OwnFrags(js, it).value;
            && |frags| == |own| + |calls|
            && (forall i :: 0 <= i < |own| ==> frags[i] == own[i])
            && (forall i :: 0 <= i < |calls| ==> CallEntry(js, calls[i]) == Some(frags[|own| + i]))
  {
    EntriesEach(js, calls);
  }

  lemma RolesApart()
    ensures Lit("tool") != Lit("user") && Lit("tool_call") != Lit("assistant") && Lit("tool_call") != Lit("user")
    ensures Lit("tool_result") !in {Lit("tool"), Lit("toolResult"), Lit("user"), Lit("assistant"), Lit("tool_call")}
    ensures Lit("user") !in {Lit("tool"), Lit("toolResult")} && Lit("assistant") !in {Lit("tool"), Lit("toolResult")}
  {
    assert Lit("tool")[0] == 116 && Lit("user")[0] == 117;
    assert Lit("tool_call")[0] == 116 && Lit("assistant")[0] == 97;
  }

  /** An item in a tool's role is one result under its call's id; only tool_result keeps its own role. */
  lemma ToolItem(js: Js, it: Json, role: Text)
    requires Get(it, "role") == Some(Str(role)) && role in {Lit("tool"), Lit("toolResult"), Lit("tool_result")}
    requires !IsText(Get(it, "type"), "function_call") && NoCallsBeside(it)
    ensures ReadItem(js, it)
         == Some(Record(if role == Lit("tool_result") then ToolResult else User, false,
                        [Frag(Some(ToolResult), OptBlockText(Get(it, "content")),
                              StrVal(FirstGiven(it, ["tool_call_id", "toolCallId"])),
                              StrVal(FirstGiven(it, ["name", "toolName"])))],
                        None))
  {
    RolesApart();
    NothingBeside(js, it);
    assert ["tool_call_id", "toolCallId"][1..] == ["toolCallId"] && ["name", "toolName"][1..] == ["toolName"];
    OneGiven(it, "toolCallId");
    OneGiven(it, "toolName");
    assert OwnFrags(js, it).value + [] == OwnFrags(js, it).value;
  }

  /** A function call is an item of its own; without a role it is the assistant's. */
  lemma CallItem(js: Js, it: Json, id: Text, name: Text, args: Option<Json>)
    requires IsText(Get(it, "type"), "function_call") && Call(it, id, name, args) && NoCallsBeside(it)
    ensures ReadItem(js, it).Some? && ReadItem(js, it).value.hasTool
    ensures IsCallFrag(js, Some(ReadItem(js, it).value.frags), id, name, args)
    ensures Get(it, "role").None? || Get(it, "role") == Some(Str(Lit("assistant"))) ==>
              ReadItem(js, it).value.role == Assistant
  {
    RolesApart();
    CallDialects(js, it, id, name, args);
    NothingBeside(js, it);
    assert OwnFrags(js, it).value + [] == OwnFrags(js, it).value;
    assert OwnFrags(js, it).value[0] in OwnFrags(js, it).value;
  }

  /** Every other item says its content, or its text when that is neither a string nor a list. */
  lemma SaidItem(js: Js, it: Json)
    requires !IsText(Get(it, "type"), "function_call") && !IsToolRole(ItemRole(it)) && NoCallsBeside(it)
    ensures forall t | Get(it, "content") == Some(Str(t)) ::
              ReadItem(js, it).Some? && ReadItem(js, it).value.frags == [TextFrag(t)]
    ensures forall blocks | Get(it, "content") == Some(Arr(blocks)) ::
              if ExpandContent(js, Arr(blocks)).None? then ReadItem(js, it).None?
              else ReadItem(js, it).Some? && ReadItem(js, it).value.frags == ExpandContent(js, Arr(blocks)).value
    ensures forall t | (Get(it, "content").Some? ==> !Get(it, "content").value.Str? && !Get(it, "content").value.Arr?)
                       && Get(it, "text") == Some(Str(t)) ::
              ReadItem(js, it).Some? && ReadItem(js, it).value.frags == [TextFrag(t)]
  {
    NothingBeside(js, it);
    if OwnFrags(js, it).Some? {
      assert OwnFrags(js, it).value + [] == OwnFrags(js, it).value;
    }
  }

  /** The role its messages get: its own, the user's for tool output, its type's, or the assistant's without either. */
  lemma ItemSpeaker(js: Js, it: Json)
    requires ReadItem(js, it).Some? && !IsText(Get(it, "type"), "function_call")
    ensures var rec := ReadItem(js, it).value;
            && (forall r | Get(it, "role") == Some(Str(r)) :: Speaker(r, rec.role))
            && (forall k | Get(it, "role").None? && Get(it, "type") == Some(Str(k)) :: Speaker(k, rec.role))
            && (Get(it, "role").None? && Get(it, "type").None? ==> rec.role == Assistant)
  {
    RolesApart();
  }

  ghost predicate Speaker(name: Text, role: Role) {
    if name in {Lit("user"), Lit("tool"), Lit("toolResult")} then role == User
    else if name == Lit("assistant") || name == [] then role == Assistant
    else if name == Lit("tool_call") then role == ToolCall
    else if name == Lit("tool_result") then role == ToolResult
    else role == Other(name)
  }

  // ---- What reading promises ----

  /** The roles of the records a document gave. */
  function RolesOf(p: Parsed): set<Role> {
    set rec | rec in p.records :: rec.role
  }

  /** A record counts as having a tool call exactly when one of its fragments is one, at whatever depth it was found. */
  ghost predicate CallsSeen(rec: Record) {
    rec.role != Other([]) && (rec.hasTool <==> HasCall(rec.frags))
  }

  lemma ItemTyped(js: Js, it: Json)
    requires ReadItem(js, it).Some?
    ensures FragsTyped(ReadItem(js, it).value.frags) && CallsSeen(ReadItem(js, it).value)
  {
    OwnTyped(js, it);
    CallsTyped(js, ItemsOf(Get(it, "tool_calls")));
    TypedAppend(OwnFrags(js, it).value, CallEntries(js, ItemsOf(Get(it, "tool_calls"))).value);
    assert RoleOf(ItemRole(it)) == Other([]) ==> ItemRole(it) == [];
  }

  lemma OwnTyped(js: Js, it: Json)
    ensures OwnFrags(js, it).Some? ==> FragsTyped(OwnFrags(js, it).value)
  {
    BlockTyped(js, it);
    if Get(it, "content").Some? {
      ContentTyped(js, Get(it, "content").value);
    }
  }

  lemma TypedAppend(a: seq<Frag>, b: seq<Frag>)
    requires FragsTyped(a) && FragsTyped(b)
    ensures FragsTyped(a + b)
  {
  }

  ghost predicate WellRead(p: Parsed) {
    && WellTagged(p) && RecordRoles(p, RolesOf(p))
    && forall rec | rec in p.records :: CallsSeen(rec)
  }

  lemma AddedWellRead(p: Parsed, rec: Record)
    requires WellRead(p) && FragsTyped(rec.frags) && CallsSeen(rec)
    ensures WellRead(AddRecord(p, Some(rec)))
  {
    AddRecordTags(p, rec);
  }

  lemma {:induction false} ItemsTagged(js: Js, items: seq<Json>)
    requires ReadItems(js, items).Some?
    ensures WellRead(ReadItems(js, items).value)
  {
    if items != [] {
      var front, it := items[..|items| - 1], items[|items| - 1];
      ItemsTagged(js, front);
      if IsItem(it) {
        ItemTyped(js, it);
        AddedWellRead(ReadItems(js, front).value, ReadItem(js, it).value);
      }
    }
  }

  /**
   * In these sessions two messages of one item fall in different rounds exactly when the item holds no tool call at
   * all and an assistant text stands between: nested calls are seen, so no text is ever separated from a call.
   */
  lemma RoundsKeepEveryCall(js: Js, items: seq<Json>, sourceKey: Text, i: nat, j: nat)
    requires ReadItems(js, items).Some?
    requires var msgs := ReadItems(js, items).value.msgs;
             i <= j < |msgs| && msgs[i].recIdx == msgs[j].recIdx
    ensures var p := ReadItems(js, items).value;
            var msgs := TagAll(p.msgs, sourceKey);
            && msgs[i].recIdx.Some? && msgs[i].recIdx.value < |p.records|
            && (FinalAnswersBefore(msgs, i) != FinalAnswersBefore(msgs, j)
                <==> !HasCall(p.records[msgs[i].recIdx.value].frags)
                     && exists k :: i <= k < j && msgs[k].role == Assistant)
  {
    ItemsTagged(js, items);
    var p := ReadItems(js, items).value;
    RoundsSplitRecords(p, RolesOf(p), sourceKey, i, j);
    var r := p.msgs[i].recIdx.value;
    assert TagAll(p.msgs, sourceKey)[i].recIdx == Some(r);
    assert p.records[r] in p.records;
  }

  // ---- The roles the memory path sends ----

  /** The roles the memory service takes. */
  const ACCEPTED: set<Role> := {User, Assistant, Other(Lit("system"))}

  ghost predicate AllNonEmpty(groups: seq<seq<ImportMessage>>) {
    forall g | g in groups :: g != []
  }

  /** The group leaves no message, or one in a role of the set. */
  ghost predicate RoleWithin(group: seq<ImportMessage>, roles: set<Role>) {
    IsBlank(GroupText(group)) || (group != [] && FlatRole(group[0]) in roles)
  }

  ghost predicate AllWithin(groups: seq<seq<ImportMessage>>, roles: set<Role>) {
    forall k :: 0 <= k < |groups| ==> RoleWithin(groups[k], roles)
  }

  lemma {:induction false} FlattenRoles(groups: seq<seq<ImportMessage>>, sourceKey: Option<Text>, roles: set<Role>)
    requires AllNonEmpty(groups)
    ensures (forall m | m in Flatten(groups, sourceKey) :: m.role in roles) <==> AllWithin(groups, roles)
  {
    if groups != [] {
      var front, last := groups[..|groups| - 1], groups[|groups| - 1];
      assert last in groups && forall g | g in front :: g in groups;
      FlattenRoles(front, sourceKey, roles);
      WithinSnoc(groups, roles);
      var before, m := Flatten(front, sourceKey), FlatMessage(last, sourceKey);
      if m.Some? {
        assert m.value in before + [m.value];
        assert forall x | x in before :: x in before + [m.value];
      }
    }
  }

  lemma WithinSnoc(groups: seq<seq<ImportMessage>>, roles: set<Role>)
    requires groups != []
    ensures AllWithin(groups, roles)
       <==> AllWithin(groups[..|groups| - 1], roles) && RoleWithin(groups[|groups| - 1], roles)
  {
    var front := groups[..|groups| - 1];
    assert forall k :: 0 <= k < |front| ==> front[k] == groups[k];
  }

  /** The record of an item that keeps anything. */
  function Contribution(js: Js, it: Json): Option<Record> {
    if IsItem(it) && ReadItem(js, it).Some? && Speaks(ReadItem(js, it).value) then ReadItem(js, it) else None
  }

  function Contributions(js: Js, items: seq<Json>): (r: seq<Option<Record>>)
    ensures |r| == |items|
  {
    seq(|items|, i requires 0 <= i < |items| => Contribution(js, items[i]))
  }

  /** The records of the items that keep anything, in order. */
  function SpeakingItems(js: Js, items: seq<Json>): seq<Record> {
    Present(Contributions(js, items))
  }

  lemma AddedRecord(p: Parsed, rec: Record)
    requires p.msgs == AllMessages(p.records) && AllSpeak(p.records)
    ensures var p' := AddRecord(p, Some(rec));
            && p'.records == (if Speaks(rec) then p.records + [rec] else p.records)
            && p'.msgs == AllMessages(p'.records) && AllSpeak(p'.records)
  {
    MessagesCarryFrags(rec, rec.frags, |p.records|);
    assert (p.records + [rec])[..|p.records|] == p.records;
  }

  /** The messages of a document are those of its speaking items, item by item. */
  lemma {:induction false} ReadLosesNothing(js: Js, items: seq<Json>)
    requires ReadItems(js, items).Some?
    ensures var p := ReadItems(js, items).value;
            && p.records == SpeakingItems(js, items) && p.msgs == AllMessages(p.records) && AllSpeak(p.records)
  {
    if items != [] {
      var front, it := items[..|items| - 1], items[|items| - 1];
      ReadLosesNothing(js, front);
      SpeakingSnoc(js, items);
      if IsItem(it) {
        AddedRecord(ReadItems(js, front).value, ReadItem(js, it).value);
      }
    }
  }

  lemma SpeakingSnoc(js: Js, items: seq<Json>)
    requires items != []
    ensures var n := |items| - 1;
            var front, last := SpeakingItems(js, items[..n]), Contribution(js, items[n]);
            SpeakingItems(js, items) == if last.Some? then front + [last.value] else front
  {
    assert Contributions(js, items)[..|items| - 1] == Contributions(js, items[..|items| - 1]);
  }

  /** The item gives the memory path a text that is not blank. */
  predicate ItemSays(js: Js, it: Json) {
    IsItem(it) && ReadItem(js, it).Some? && !IsBlank(RecordText(ReadItem(js, it).value))
  }

  lemma SayingSpeaks(rec: Record)
    ensures !IsBlank(RecordText(rec)) ==> Speaks(rec)
  {
    MessagesCarryFrags(rec, rec.frags, 0);
    BlankWhenEmpty([]);
  }

  /** Records that say anything have one of these roles. */
  ghost predicate RecordsSpeakAs(records: seq<Record>, roles: set<Role>) {
    forall rec | rec in records && !IsBlank(RecordText(rec)) :: rec.role in roles
  }

  /** Items that say anything give their messages one of these roles. */
  ghost predicate ItemsSpeakAs(js: Js, items: seq<Json>, roles: set<Role>) {
    forall it | it in items && ItemSays(js, it) :: OutRole(ItemRole(it)) in roles
  }

  lemma {:induction false} PresentAll<T>(options: seq<Option<T>>, p: T -> bool)
    ensures (forall x | x in Present(options) :: p(x))
       <==> (forall i :: 0 <= i < |options| && options[i].Some? ==> p(options[i].value))
  {
    if options != [] {
      var n := |options| - 1;
      PresentAll(options[..n], p);
      if options[n].Some? {
        assert forall x :: x in Present(options) <==> x in Present(options[..n]) || x == options[n].value;
      }
      assert forall i :: 0 <= i < n ==> options[..n][i] == options[i];
    }
  }

  lemma ContributionSays(js: Js, it: Json)
    ensures ItemSays(js, it) <==> Contribution(js, it).Some? && !IsBlank(RecordText(Contribution(js, it).value))
    ensures Contribution(js, it).Some? ==> Contribution(js, it).value.role == OutRole(ItemRole(it))
  {
    if ReadItem(js, it).Some? {
      SayingSpeaks(ReadItem(js, it).value);
    }
  }

  /** The speaking records that say anything have these roles exactly when the items that say anything do. */
  lemma SayingItems(js: Js, items: seq<Json>, roles: set<Role>)
    ensures RecordsSpeakAs(SpeakingItems(js, items), roles) <==> ItemsSpeakAs(js, items, roles)
  {
    var options := Contributions(js, items);
    PresentAll(options, (rec: Record) => IsBlank(RecordText(rec)) || rec.role in roles);
    forall i | 0 <= i < |items|
      ensures ItemSays(js, items[i]) && OutRole(ItemRole(items[i])) !in roles
         <==> options[i].Some? && !IsBlank(RecordText(options[i].value)) && options[i].value.role !in roles
    {
      ContributionSays(js, items[i]);
    }
  }

  lemma GroupsWithin(records: seq<Record>, sourceKey: Text, roles: set<Role>)
    requires forall rec | rec in records :: Speaks(rec) && rec.role != Other([])
    ensures AllNonEmpty(TaggedGroups(records, sourceKey))
    ensures AllWithin(TaggedGroups(records, sourceKey), roles)
       <==> RecordsSpeakAs(records, roles)
  {
    var groups := TaggedGroups(records, sourceKey);
    forall k | 0 <= k < |records|
      ensures groups[k] != []
      ensures RoleWithin(groups[k], roles) <==> IsBlank(RecordText(records[k])) || records[k].role in roles
    {
      assert records[k] in records;
      TaggedGroupKeys(records[k], k, sourceKey);
      GroupSaysRecord(records[k], k, sourceKey);
    }
  }

  /**
   * A document's role goes to the memory service as it stands: the memory messages keep to the service's roles
   * exactly when every item that says anything has one of them, or a tool's role, or none.
   */
  lemma MemoryRolesAreItemRoles(js: Js, items: seq<Json>, sourceKey: Text)
    requires ReadItems(js, items).Some?
    ensures (forall m | m in MemoryMessages(TagAll(ReadItems(js, items).value.msgs, sourceKey)) :: m.role in ACCEPTED)
       <==> ItemsSpeakAs(js, items, ACCEPTED)
  {
    var p := ReadItems(js, items).value;
    ItemsTagged(js, items);
    ReadLosesNothing(js, items);
    MemoryOfRecords(p, RolesOf(p), sourceKey);
    GroupsWithin(p.records, sourceKey, ACCEPTED);
    FlattenRoles(TaggedGroups(p.records, sourceKey), FirstSourceKey(TagAll(p.msgs, sourceKey)), ACCEPTED);
    SayingItems(js, items, ACCEPTED);
  }

  /** An item with role tool_result is a tool's output, yet its memory message has a role the service refuses. */
  lemma ToolResultItemIsRefused(js: Js)
    ensures var it := Obj(map["role" := Str(Lit("tool_result")), "content" := Str(Lit("x"))]);
            && ReadItems(js, [it]).Some?
            && var memory := MemoryMessages(ReadItems(js, [it]).value.msgs);
               |memory| == 1 && memory[0].role == ToolResult && memory[0].role !in ACCEPTED
  {
    var it := Obj(map["role" := Str(Lit("tool_result")), "content" := Str(Lit("x"))]);
    ToolResultItemRead(js, it);
    OneSpeaks(ReadItems(js, [it]).value.msgs[0]);
  }

  /** A tool result alone always yields a memory message: its text is never blank. */
  lemma OneSpeaks(m: ImportMessage)
    requires m.role == ToolResult
    ensures MemoryMessages([m])
         == [ImportMessage(FlatRole(m), GroupText([m]), m.sourceKey, m.ts, false, [], [], None, None)]
  {
    assert [m][..0] == [] && [[m]][..0] == [];
    assert Keys([m]) == [] + [Key(m)] && GroupAt([m], Key(m)) == [] + [m];
    assert Groups([m])[0] == [m];
    SaysResult(m);
    assert Flatten([[m]], m.sourceKey) == [] + [FlatMessage([m], m.sourceKey).value];
  }

  lemma SaysResult(m: ImportMessage)
    requires m.role == ToolResult
    ensures !IsBlank(GroupText([m]))
  {
    var text := FlatText(m);
    assert text[0] == Lit("[tool_result")[0] == 91;
    assert seq(1, i requires 0 <= i < 1 => FlatText([m][i])) == [text];
    assert [text][1..] == [] && NonEmpty([text]) == [text] + NonEmpty([]);
    assert GroupText([m]) == text;
    assert text[0] in text;
  }

  lemma ToolResultItemRead(js: Js, it: Json)
    requires it == Obj(map["role" := Str(Lit("tool_result")), "content" := Str(Lit("x"))])
    ensures ReadItems(js, [it]).Some?
    ensures var m := ImportMessage(ToolResult, Lit("x"), None, None, false, [], [], Some(0), Some(ToolResult));
            ReadItems(js, [it]).value.msgs == [m]
  {
    assert Lit("tool_result") !in {Lit("tool"), Lit("toolResult"), Lit("user"), Lit("assistant"), Lit("tool_call")};
    assert ItemRole(it) == Lit("tool_result");
    var f := Frag(Some(ToolResult), Lit("x"), [], []);
    assert OwnFrags(js, it) == Some([f]);
    assert CallEntries(js, []) == Some([]) && [f] + [] == [f];
    var rec := ReadItem(js, it).value;
    assert rec.frags == [f] && rec.role == ToolResult;
    assert [f][..0] == [];
    assert MessagesOf(rec, [f], 0) == [] + [MessageOf(rec, f, 0)];
    assert [it][..0] == [];
  }
}
