/** Sessions kept as rows of a database (agents/asset-import.ts:350-353, 2413-2493). */
module ImportHermes {
  import opened JsText
  import opened JsValue
  import opened ImportModel
  import opened ImportParse
  import opened ImportUpload
  import opened ImportMemory
  import opened ImportResponses
  import opened ImportDialects

  /** A row; null columns are None, and ts is the timestamp in milliseconds, whose rounding is not modelled. */
  datatype Row = Row(
    sessionId: Text, role: Text, content: Json, toolCallId: Option<Text>, toolCalls: Option<Text>,
    toolName: Option<Text>, ts: Option<JsNumber>)

  datatype Session = Session(sessionId: Text, messages: seq<ImportMessage>)

  function OrEmpty(t: Option<Text>): Text {
    if t.Some? then t.value else []
  }

  /** The calls an assistant row lists; a column that is no JSON lists none. */
  function RowCalls(js: Js, r: Row): seq<Json> {
    if r.role != Lit("assistant") || OrEmpty(r.toolCalls) == [] then []
    else ItemsOf(js.parse(OrEmpty(r.toolCalls)))
  }

  function CallMessage(js: Js, c: Json, ts: Option<JsNumber>): ImportMessage {
    var fn := Get(c, "function");
    var args := Coalesce(Coalesce(Coalesce(Get(c, "arguments"), Get(c, "input")), GetOpt(fn, "arguments")),
                         Some(c)).value;
    var content := if args.Str? then args.s else js.stringify(if args.Null? then Str([]) else args);
    ImportMessage(ToolCall, content, None, ts, true,
                  StrVal(Coalesce(Get(c, "id"), Get(c, "tool_call_id"))),
                  StrVal(Coalesce(Get(c, "name"), GetOpt(fn, "name"))), None, Some(Assistant))
  }

  function CallMessages(js: Js, calls: seq<Json>, ts: Option<JsNumber>): (out: seq<ImportMessage>)
    ensures |out| == |calls|
  {
    seq(|calls|, i requires 0 <= i < |calls| => CallMessage(js, calls[i], ts))
  }

  function MemRoleOf(role: Text): Role {
    if role == Lit("system") then Other(Lit("system")) else if role == Lit("assistant") then Assistant else User
  }

  /** A row's messages; None when reading its content throws. */
  function RowMessages(js: Js, r: Row): Option<seq<ImportMessage>> {
    var content := ExtractText(js, r.content);
    if content.None? then None
    else if content.value == [] then Some([])
    else
      var text, calls := content.value, RowCalls(js, r);
      if calls != [] then
        Some((if IsBlank(text) then []
              else [ImportMessage(Assistant, text, None, r.ts, true, [], [], None, Some(Assistant))])
             + CallMessages(js, calls, r.ts))
      else if r.role == Lit("tool") then
        Some([ImportMessage(ToolResult, text, None, r.ts, false, OrEmpty(r.toolCallId), OrEmpty(r.toolName), None,
                            Some(User))])
      else Some([ImportMessage(RoleOf(r.role), text, None, r.ts, false, [], [], None, Some(MemRoleOf(r.role)))])
  }

  function MessagesIn(js: Js, r: Row): seq<ImportMessage> {
    if RowMessages(js, r).Some? then RowMessages(js, r).value else []
  }

  // ---- What a row says ----

  lemma StringText(js: Js, t: Text)
    ensures ExtractText(js, Str(t)) == Some(t)
  {
    var none: seq<Text> := [];
    assert FlatFrags([TextFrag(t)]) == [t];
    assert [t][1..] == none && NonEmpty([t]) == if t == [] then none else [t] + NonEmpty(none);
  }

  function Strings(texts: seq<Text>): seq<Json> {
    seq(|texts|, i requires 0 <= i < |texts| => Str(texts[i]))
  }

  function TextFrags(texts: seq<Text>): seq<Frag> {
    seq(|texts|, i requires 0 <= i < |texts| => TextFrag(texts[i]))
  }

  lemma ListText(js: Js, texts: seq<Text>)
    ensures ExtractText(js, Arr(Strings(texts))) == Some(Join(NonEmpty(texts), [NEWLINE]))
  {
    TextsExpand(js, texts);
    assert FlatFrags(TextFrags(texts)) == texts;
  }

  /** A row's text: a string as it is, the lines of a list's texts, nothing for a null. */
  lemma RowText(js: Js, t: Text, texts: seq<Text>)
    ensures ExtractText(js, Str(t)) == Some(t)
    ensures ExtractText(js, Arr(Strings(texts))) == Some(Join(NonEmpty(texts), [NEWLINE]))
    ensures ExtractText(js, Null) == Some([])
  {
    StringText(js, t);
    ListText(js, texts);
    assert FlatFrags([]) == [];
  }

  lemma {:induction false} TextsExpand(js: Js, texts: seq<Text>)
    ensures ExpandBlocks(js, Strings(texts)) == Some(TextFrags(texts))
  {
    if texts == [] {
      assert Strings(texts) == [] && TextFrags(texts) == [];
    } else {
      TextsExpand(js, texts[1..]);
      assert Strings(texts)[1..] == Strings(texts[1..]);
      assert TextFrags(texts) == [TextFrag(texts[0])] + TextFrags(texts[1..]);
    }
  }

  /** The row lists these calls: it is the assistant's, and its column holds them as a list. */
  ghost predicate Lists(js: Js, r: Row, calls: seq<Json>) {
    r.role == Lit("assistant") && r.toolCalls.Some? && r.toolCalls.value != []
    && js.parse(r.toolCalls.value) == Some(Arr(calls))
  }

  /** A listed call as a message: the first place that gives arguments counts, the call itself when none does. */
  ghost predicate CallAsMessage(js: Js, c: Json, ts: Option<JsNumber>, m: ImportMessage) {
    var fn := if Get(c, "function").Some? then Get(c, "function").value else Null;
    var args := if FirstGiven(c, ["arguments", "input"]).Some? then FirstGiven(c, ["arguments", "input"]).value
                else if FirstGiven(fn, ["arguments"]).Some? then FirstGiven(fn, ["arguments"]).value
                else c;
    && m.role == ToolCall && m.memRole == Some(Assistant) && m.hasToolUse && m.ts == ts
    && m.toolCallId == StrVal(FirstGiven(c, ["id", "tool_call_id"]))
    && m.toolName == StrVal(if FirstGiven(c, ["name"]).Some? then FirstGiven(c, ["name"])
                            else FirstGiven(fn, ["name"]))
    && (args != Null ==> ArgText(js, Some(args), m.content))
    && (args == Null ==> m.content == js.stringify(Str([])))
  }

  lemma CallBecomes(js: Js, c: Json, ts: Option<JsNumber>)
    ensures CallAsMessage(js, c, ts, CallMessage(js, c, ts))
  {
    var fn := if Get(c, "function").Some? then Get(c, "function").value else Null;
    assert ["arguments", "input"][1..] == ["input"] && ["id", "tool_call_id"][1..] == ["tool_call_id"];
    OneGiven(c, "input");
    OneGiven(c, "tool_call_id");
    OneGiven(c, "name");
    OneGiven(fn, "arguments");
    OneGiven(fn, "name");
  }

  /** What stands before the calls: the assistant's text, unless it is blank. */
  function SaidBefore(r: Row, text: Text): seq<ImportMessage> {
    if IsBlank(text) then [] else [ImportMessage(Assistant, text, None, r.ts, true, [], [], None, Some(Assistant))]
  }

  ghost predicate CallsAsMessages(js: Js, calls: seq<Json>, ts: Option<JsNumber>, msgs: seq<ImportMessage>) {
    |msgs| == |calls| && forall i :: 0 <= i < |calls| ==> CallAsMessage(js, calls[i], ts, msgs[i])
  }

  lemma CallsBecome(js: Js, calls: seq<Json>, ts: Option<JsNumber>)
    ensures CallsAsMessages(js, calls, ts, CallMessages(js, calls, ts))
  {
    forall i | 0 <= i < |calls|
      ensures CallAsMessage(js, calls[i], ts, CallMessages(js, calls, ts)[i])
    {
      CallBecomes(js, calls[i], ts);
    }
  }

  /** The assistant's text, unless it is blank, then the calls the row lists, one by one. */
  lemma ListingRow(js: Js, r: Row, text: Text, calls: seq<Json>)
    requires ExtractText(js, r.content) == Some(text) && text != []
    requires Lists(js, r, calls) && calls != []
    ensures SaidBefore(r, text) <= MessagesIn(js, r)
    ensures CallsAsMessages(js, calls, r.ts, MessagesIn(js, r)[|SaidBefore(r, text)|..])
  {
    assert RowCalls(js, r) == calls;
    assert MessagesIn(js, r) == SaidBefore(r, text) + CallMessages(js, calls, r.ts);
    CallsBecome(js, calls, r.ts);
  }

  /** Any other row with a text is one message: a tool's is a result under the row's call id, for the user's turn. */
  lemma PlainRow(js: Js, r: Row, text: Text)
    requires ExtractText(js, r.content) == Some(text) && text != []
    requires forall calls | Lists(js, r, calls) :: calls == []
    ensures MessagesIn(js, r)
         == [if r.role == Lit("tool") then
               ImportMessage(ToolResult, text, None, r.ts, false, OrEmpty(r.toolCallId), OrEmpty(r.toolName), None,
                             Some(User))
             else ImportMessage(RoleOf(r.role), text, None, r.ts, false, [], [], None, Some(MemRoleOf(r.role)))]
    ensures RoleOf(Lit("assistant")) == Assistant && MemRoleOf(Lit("assistant")) == Assistant
    ensures RoleOf(Lit("user")) == User && MemRoleOf(Lit("user")) == User
    ensures RoleOf(Lit("system")) == Other(Lit("system")) == MemRoleOf(Lit("system"))
    ensures forall other | other !in {Lit("assistant"), Lit("system")} :: MemRoleOf(other) == User
  {
    assert Lit("system") != Lit("assistant") && Lit("user") != Lit("system");
    assert Lit("user")[0] == 117 && Lit("system")[0] == 115;
    var calls := RowCalls(js, r);
    if r.role == Lit("assistant") && r.toolCalls.Some? && r.toolCalls.value != [] {
      if js.parse(r.toolCalls.value).Some? && js.parse(r.toolCalls.value).value.Arr? {
        assert Lists(js, r, js.parse(r.toolCalls.value).value.items);
      }
    }
    assert calls == [];
  }

  /** A row without text gives nothing, and one whose content throws makes the whole table unreadable. */
  lemma SilentOrThrowing(js: Js, r: Row)
    ensures RowMessages(js, r).None? <==> ExpandContent(js, r.content).None?
    ensures ExtractText(js, r.content) == Some([]) ==> MessagesIn(js, r) == []
  {
  }

  // ---- Sessions ----

  /** What a row contributes: messages for a session. */
  datatype Share = Share(sessionId: Text, msgs: seq<ImportMessage>)

  function Shares(js: Js, rows: seq<Row>): (r: seq<Share>)
    ensures |r| == |rows|
  {
    seq(|rows|, i requires 0 <= i < |rows| => Share(rows[i].sessionId, MessagesIn(js, rows[i])))
  }

  /** The messages of one session, in the order of its rows. */
  function Gathered(shares: seq<Share>, sid: Text): seq<ImportMessage> {
    if shares == [] then []
    else
      var front, last := Gathered(shares[..|shares| - 1], sid), shares[|shares| - 1];
      if last.sessionId == sid then front + last.msgs else front
  }

  /** The sessions that have messages, in the order of their first one. */
  function GatheredIds(shares: seq<Share>): seq<Text> {
    if shares == [] then []
    else
      var front, last := GatheredIds(shares[..|shares| - 1]), shares[|shares| - 1];
      if last.sessionId in front || last.msgs == [] then front else front + [last.sessionId]
  }

  function SessionMessages(js: Js, rows: seq<Row>, sid: Text): seq<ImportMessage> {
    Gathered(Shares(js, rows), sid)
  }

  function Numbered(msgs: seq<ImportMessage>): (r: seq<ImportMessage>)
    ensures |r| == |msgs|
  {
    seq(|msgs|, i requires 0 <= i < |msgs| => msgs[i].(recIdx := Some(i)))
  }

  ghost predicate NoneThrows(js: Js, rows: seq<Row>) {
    forall r | r in rows :: RowMessages(js, r).Some?
  }

  ghost function Sessions(js: Js, rows: seq<Row>): seq<Session> {
    var ids := GatheredIds(Shares(js, rows));
    if NoneThrows(js, rows)
    then seq(|ids|, i requires 0 <= i < |ids| => Session(ids[i], Numbered(SessionMessages(js, rows, ids[i]))))
    else []
  }

  lemma GatherSnoc(shares: seq<Share>, s: Share)
    ensures forall sid :: Gathered(shares + [s], sid)
                          == Gathered(shares, sid) + if s.sessionId == sid then s.msgs else []
    ensures GatheredIds(shares + [s])
         == if s.sessionId in GatheredIds(shares) || s.msgs == [] then GatheredIds(shares)
            else GatheredIds(shares) + [s.sessionId]
  {
    assert (shares + [s])[..|shares|] == shares;
  }

  lemma {:induction false} GatherAppend(a: seq<Share>, b: seq<Share>, sid: Text)
    ensures Gathered(a + b, sid) == Gathered(a, sid) + Gathered(b, sid)
    decreases |b|
  {
    if b == [] {
      assert a + b == a;
    } else {
      assert (a + b)[..|a + b| - 1] == a + b[..|b| - 1];
      GatherAppend(a, b[..|b| - 1], sid);
    }
  }

  lemma {:induction false} IdsAreThoseSpoken(shares: seq<Share>, sid: Text)
    ensures sid in GatheredIds(shares) <==> Gathered(shares, sid) != []
  {
    if shares != [] {
      IdsAreThoseSpoken(shares[..|shares| - 1], sid);
    }
  }

  lemma {:induction false} IdsOnce(shares: seq<Share>)
    ensures forall i, j :: 0 <= i < j < |GatheredIds(shares)| ==> GatheredIds(shares)[i] != GatheredIds(shares)[j]
  {
    if shares != [] {
      IdsOnce(shares[..|shares| - 1]);
    }
  }

  /** Unless a row throws, every session with messages is listed once, with its messages numbered from zero. */
  lemma SessionsOnce(js: Js, rows: seq<Row>)
    requires forall r | r in rows :: ExpandContent(js, r.content).Some?
    ensures var out := Sessions(js, rows);
            && (forall i, j :: 0 <= i < j < |out| ==> out[i].sessionId != out[j].sessionId)
            && (forall i :: 0 <= i < |out| ==>
                  out[i].messages == Numbered(SessionMessages(js, rows, out[i].sessionId)) && out[i].messages != [])
            && (forall sid :: SessionMessages(js, rows, sid) != [] ==>
                  exists i :: 0 <= i < |out| && out[i].sessionId == sid)
  {
    var shares := Shares(js, rows);
    forall r | r in rows
      ensures RowMessages(js, r).Some?
    {
      SilentOrThrowing(js, r);
    }
    IdsOnce(shares);
    var out := Sessions(js, rows);
    forall i | 0 <= i < |out|
      ensures out[i].messages != []
    {
      IdsAreThoseSpoken(shares, out[i].sessionId);
    }
    forall sid | SessionMessages(js, rows, sid) != []
      ensures exists i :: 0 <= i < |out| && out[i].sessionId == sid
    {
      IdsAreThoseSpoken(shares, sid);
      var i :| 0 <= i < |GatheredIds(shares)| && GatheredIds(shares)[i] == sid;
      assert out[i].sessionId == sid;
    }
  }

  ghost predicate Grouped(shares: seq<Share>, ids: seq<Text>, bySession: map<Text, seq<ImportMessage>>) {
    && ids == GatheredIds(shares)
    && (forall sid :: sid in bySession <==> sid in ids)
    && (forall sid :: sid in bySession ==> bySession[sid] == Gathered(shares, sid))
  }

  method AddShare(ghost shares: seq<Share>, s: Share, ids: seq<Text>, bySession: map<Text, seq<ImportMessage>>)
    returns (ids': seq<Text>, bySession': map<Text, seq<ImportMessage>>)
    requires Grouped(shares, ids, bySession)
    ensures Grouped(shares + [s], ids', bySession')
  {
    GatherSnoc(shares, s);
    IdsAreThoseSpoken(shares, s.sessionId);
    ids', bySession' := ids, bySession;
    if |s.msgs| > 0 {
      if s.sessionId !in bySession {
        ids', bySession' := ids + [s.sessionId], bySession[s.sessionId := []];
      }
      bySession' := bySession'[s.sessionId := bySession'[s.sessionId] + s.msgs];
    }
  }

  lemma SharesSnoc(js: Js, rows: seq<Row>, i: nat)
    requires i < |rows|
    ensures Shares(js, rows[..i + 1]) == Shares(js, rows[..i]) + [Share(rows[i].sessionId, MessagesIn(js, rows[i]))]
  {
  }

  /** The rows' messages by session; not ok when a row throws. */
  method GroupRows(js: Js, rows: seq<Row>)
    returns (ok: bool, ids: seq<Text>, bySession: map<Text, seq<ImportMessage>>)
    ensures ok <==> NoneThrows(js, rows)
    ensures ok ==> Grouped(Shares(js, rows), ids, bySession)
  {
    ids, bySession := [], map[];
    for i := 0 to |rows|
      invariant NoneThrows(js, rows[..i]) && Grouped(Shares(js, rows[..i]), ids, bySession)
    {
      assert rows[..i + 1] == rows[..i] + [rows[i]];
      var msgs := RowMessages(js, rows[i]);
      if msgs.None? {
        assert rows[i] in rows;
        ok := false;
        return;
      }
      SharesSnoc(js, rows, i);
      ids, bySession := AddShare(Shares(js, rows[..i]), Share(rows[i].sessionId, msgs.value), ids, bySession);
    }
    assert rows[..|rows|] == rows;
    ok := true;
  }

  method ListSessions(ids: seq<Text>, bySession: map<Text, seq<ImportMessage>>) returns (out: seq<Session>)
    requires forall sid | sid in ids :: sid in bySession
    ensures |out| == |ids|
    ensures forall i :: 0 <= i < |ids| ==>
              ids[i] in bySession && out[i] == Session(ids[i], Numbered(bySession[ids[i]]))
  {
    out := [];
    for i := 0 to |ids|
      invariant |out| == i
      invariant forall k :: 0 <= k < i ==> ids[k] in bySession && out[k] == Session(ids[k], Numbered(bySession[ids[k]]))
    {
      assert ids[i] in ids;
      out := out + [Session(ids[i], Numbered(bySession[ids[i]]))];
    }
  }

  /** The rows of the table as sessions. A row that throws is caught outside the loop, before any session is listed. */
  method ReadStateDb(js: Js, rows: seq<Row>) returns (out: seq<Session>)
    ensures out == Sessions(js, rows)
  {
    out := [];
    var ok, ids, bySession := GroupRows(js, rows);
    if !ok {
      return;
    }
    out := ListSessions(ids, bySession);
    assert |out| == |Sessions(js, rows)|;
    assert forall i :: 0 <= i < |ids| ==> ids[i] in ids;
  }

  // ---- Rows and rounds ----

  /** Only a row with a single message can end a round. */
  lemma RowHasNoInnerAnswer(js: Js, r: Row, k: nat)
    requires k + 1 < |MessagesIn(js, r)|
    ensures !IsFinalAnswer(MessagesIn(js, r)[k])
  {
  }

  lemma SharesAround(js: Js, before: seq<Row>, r: Row, after: seq<Row>)
    ensures Shares(js, before + [r] + after)
         == Shares(js, before) + [Share(r.sessionId, MessagesIn(js, r))] + Shares(js, after)
  {
  }

  lemma RowInSession(js: Js, before: seq<Row>, r: Row, after: seq<Row>)
    ensures var sid := r.sessionId;
            SessionMessages(js, before + [r] + after, sid)
            == SessionMessages(js, before, sid) + MessagesIn(js, r) + SessionMessages(js, after, sid)
  {
    var own := Share(r.sessionId, MessagesIn(js, r));
    SharesAround(js, before, r, after);
    GatherAppend(Shares(js, before) + [own], Shares(js, after), r.sessionId);
    GatherSnoc(Shares(js, before), own);
  }

  lemma StretchInOneRound(head: seq<ImportMessage>, own: seq<ImportMessage>, tail: seq<ImportMessage>, sourceKey: Text,
                          i: nat, j: nat)
    requires |head| <= i <= j < |head| + |own|
    requires forall k :: 0 <= k && k + 1 < |own| ==> !IsFinalAnswer(own[k])
    ensures InOneRound(TagAll(Numbered(head + own + tail), sourceKey), i, j)
  {
    var all := head + own + tail;
    forall k | i <= k < j
      ensures !IsFinalAnswer(TagAll(Numbered(all), sourceKey)[k])
    {
      assert all[k] == own[k - |head|];
    }
    NoAnswerBetween(TagAll(Numbered(all), sourceKey), i, j);
  }

  /** The messages of one row always stay in one round, whatever the rows before and after it. */
  lemma RowsStayInOneRound(js: Js, before: seq<Row>, r: Row, after: seq<Row>, sourceKey: Text, i: nat, j: nat)
    requires var start := |SessionMessages(js, before, r.sessionId)|;
             start <= i <= j < start + |MessagesIn(js, r)|
    ensures var msgs := TagAll(Numbered(SessionMessages(js, before + [r] + after, r.sessionId)), sourceKey);
            j < |msgs| && InOneRound(msgs, i, j)
  {
    RowInSession(js, before, r, after);
    forall k | 0 <= k && k + 1 < |MessagesIn(js, r)|
      ensures !IsFinalAnswer(MessagesIn(js, r)[k])
    {
      RowHasNoInnerAnswer(js, r, k);
    }
    StretchInOneRound(SessionMessages(js, before, r.sessionId), MessagesIn(js, r),
                      SessionMessages(js, after, r.sessionId), sourceKey, i, j);
  }

  // ---- The memory path ----

  lemma {:induction false} NumberedRuns(msgs: seq<ImportMessage>)
    requires forall i :: 0 <= i < |msgs| ==> msgs[i].recIdx == Some(i)
    ensures Runs(msgs) == Singles(msgs)
  {
    if msgs != [] {
      var n := |msgs| - 1;
      NumberedRuns(msgs[..n]);
      assert Singles(msgs) == Singles(msgs[..n]) + [[msgs[n]]];
    }
  }

  ghost predicate SpeakAccepted(msgs: seq<ImportMessage>) {
    forall m | m in msgs :: m.memRole.Some? && m.memRole.value in ACCEPTED
  }

  lemma RowSpeaksAccepted(js: Js, r: Row)
    ensures SpeakAccepted(MessagesIn(js, r))
  {
  }

  lemma {:induction false} GatheredSpeaksAccepted(shares: seq<Share>, sid: Text)
    requires forall i :: 0 <= i < |shares| ==> SpeakAccepted(shares[i].msgs)
    ensures SpeakAccepted(Gathered(shares, sid))
  {
    if shares != [] {
      GatheredSpeaksAccepted(shares[..|shares| - 1], sid);
    }
  }

  lemma SessionSpeaksAccepted(js: Js, rows: seq<Row>, sid: Text)
    ensures SpeakAccepted(SessionMessages(js, rows, sid))
  {
    forall i | 0 <= i < |rows|
      ensures SpeakAccepted(Shares(js, rows)[i].msgs)
    {
      RowSpeaksAccepted(js, rows[i]);
    }
    GatheredSpeaksAccepted(Shares(js, rows), sid);
  }

  lemma NumberedMemory(all: seq<ImportMessage>, sourceKey: Text)
    ensures var msgs := TagAll(Numbered(all), sourceKey);
            MemoryMessages(msgs) == Flatten(Singles(msgs), FirstSourceKey(msgs))
  {
    var msgs := TagAll(Numbered(all), sourceKey);
    StepwiseNondecreasing(msgs);
    GroupsAreRuns(msgs);
    NumberedRuns(msgs);
  }

  lemma SinglesWithin(all: seq<ImportMessage>, sourceKey: Text)
    requires SpeakAccepted(all)
    ensures RolesWithin(Singles(TagAll(Numbered(all), sourceKey)), ACCEPTED)
  {
    var msgs := TagAll(Numbered(all), sourceKey);
    assert Lit("system") != [];
    forall i | 0 <= i < |msgs|
      ensures msgs[i].memRole.Some? && msgs[i].memRole.value in ACCEPTED && msgs[i].memRole.value != Other([])
    {
      assert all[i] in all;
    }
  }

  /**
   * Numbering the messages keeps the memory path from collapsing the session: it sends every message on its own, in
   * order, but for the blank ones, always in a role the memory service takes.
   */
  lemma MemoryPathOfRows(js: Js, rows: seq<Row>, sid: Text, sourceKey: Text)
    ensures var msgs := TagAll(Numbered(SessionMessages(js, rows, sid)), sourceKey);
            && MemoryMessages(msgs) == Flatten(Singles(msgs), FirstSourceKey(msgs))
            && (forall m | m in MemoryMessages(msgs) :: m.role in ACCEPTED)
  {
    var all := SessionMessages(js, rows, sid);
    var msgs := TagAll(Numbered(all), sourceKey);
    SessionSpeaksAccepted(js, rows, sid);
    NumberedMemory(all, sourceKey);
    SinglesWithin(all, sourceKey);
    FlattenBounds(Singles(msgs), FirstSourceKey(msgs), ACCEPTED);
  }

  // ---- The skill path ----

  /** The roles the skill service takes. */
  const SKILL_ROLES: set<Role> := {User, Assistant, ToolCall, ToolResult, Other(Lit("system"))}

  predicate KnownRole(role: Text) {
    role in {Lit("user"), Lit("assistant"), Lit("system"), Lit("tool"), Lit("tool_call"), Lit("tool_result")}
  }

  /** A row's messages have roles of the skill service exactly when the row's own role is known, or it is silent. */
  lemma SkillRolesOfRow(js: Js, r: Row)
    ensures (forall m | m in MessagesIn(js, r) :: m.role in SKILL_ROLES)
       <==> MessagesIn(js, r) == [] || KnownRole(r.role)
  {
    var own := MessagesIn(js, r);
    if own != [] {
      assert own[0] in own;
    }
  }

  function ToolCallsIn(msgs: seq<ImportMessage>): nat {
    if msgs == [] then 0
    else ToolCallsIn(msgs[..|msgs| - 1]) + if msgs[|msgs| - 1].role == ToolCall then 1 else 0
  }

  lemma {:induction false} AllCalls(msgs: seq<ImportMessage>, head: seq<ImportMessage>)
    requires forall m | m in msgs :: m.role == ToolCall
    ensures ToolCallsIn(head + msgs) == ToolCallsIn(head) + |msgs|
    decreases |msgs|
  {
    if msgs == [] {
      assert head + msgs == head;
    } else {
      var front := msgs[..|msgs| - 1];
      assert (head + msgs)[..|head + msgs| - 1] == head + front;
      assert msgs[|msgs| - 1] in msgs && forall m | m in front :: m in msgs;
      AllCalls(front, head);
    }
  }

  /** A row that lists calls keeps them all, unless it has no text: then it is skipped and every one of them is lost. */
  lemma SilentRowLosesItsCalls(js: Js, r: Row)
    requires ExtractText(js, r.content).Some? && RowCalls(js, r) != []
    ensures ToolCallsIn(MessagesIn(js, r))
         == if ExtractText(js, r.content).value == [] then 0 else |RowCalls(js, r)|
  {
    var text, calls := ExtractText(js, r.content).value, RowCalls(js, r);
    if text != [] {
      var said := ImportMessage(Assistant, text, None, r.ts, true, [], [], None, Some(Assistant));
      var head := if IsBlank(text) then [] else [said];
      assert [said][..0] == [];
      assert ToolCallsIn(head) == 0;
      AllCalls(CallMessages(js, calls, r.ts), head);
      assert MessagesIn(js, r) == head + CallMessages(js, calls, r.ts);
    }
  }

  /** A listed call and the tool row that answers it carry the same id, in order, next to what they say. */
  lemma CallAndResultPair(js: Js, r: Row, answer: Row, i: nat)
    requires ExtractText(js, r.content).Some? && ExtractText(js, r.content).value != []
    requires i < |RowCalls(js, r)| && RowCalls(js, r)[i].Obj?
    requires answer.toolCallId.Some? && Get(RowCalls(js, r)[i], "id") == Some(Str(answer.toolCallId.value))
    requires answer.role == Lit("tool")
    requires ExtractText(js, answer.content).Some? && ExtractText(js, answer.content).value != []
    ensures var msgs, reply := MessagesIn(js, r), MessagesIn(js, answer);
            var k := |msgs| - |RowCalls(js, r)| + i;
            && 0 <= k < |msgs| && msgs[k].role == ToolCall && msgs[k].toolCallId == answer.toolCallId.value
            && |reply| == 1 && reply[0].role == ToolResult && reply[0].toolCallId == answer.toolCallId.value
            && reply[0].content == ExtractText(js, answer.content).value
  {
    assert RowCalls(js, answer) == [] by {
      assert Lit("tool") != Lit("assistant");
    }
  }
}
