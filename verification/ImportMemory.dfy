/**
 * The two upload paths of one parsed session: what the memory path makes of its records and what the skill path's
 * rounds do to them (agents/asset-import.ts:928-998, 1159-1190).
 */
module ImportMemory {
  import opened JsText
  import opened JsValue
  import opened Utf16Split
  import opened ImportModel
  import opened ImportParse
  import opened ImportUpload

  // ---- The uploadSession mapping ----

  /** The message both paths see; an empty memRole counts as absent. */
  function Tagged(m: ImportMessage, sourceKey: Text): ImportMessage {
    ImportMessage(m.role, m.content, Some(sourceKey), m.ts, m.hasToolUse, m.toolCallId, m.toolName, m.recIdx,
                  if m.memRole == Some(Other([])) then None else m.memRole)
  }

  function TagAll(msgs: seq<ImportMessage>, sourceKey: Text): (r: seq<ImportMessage>)
    ensures |r| == |msgs|
  {
    seq(|msgs|, i requires 0 <= i < |msgs| => Tagged(msgs[i], sourceKey))
  }

  // ---- Memory messages ----

  function Key(m: ImportMessage): int {
    if m.recIdx.Some? then m.recIdx.value else -1
  }

  /** s.replace(/\s+/g, " ") */
  function CollapseSpaces(s: Text): Text {
    if s == [] then []
    else if !IsWhitespace(s[0]) then [s[0]] + CollapseSpaces(s[1..])
    else if |s| > 1 && IsWhitespace(s[1]) then CollapseSpaces(s[1..])
    else [0x20] + CollapseSpaces(s[1..])
  }

  function Capped(s: Text): Text {
    var one := Trim(CollapseSpaces(s));
    if |one| > 4000 then one[..4000] + [0x2026] else one
  }

  function FlatText(m: ImportMessage): Text {
    match m.role
    case ToolCall =>
      Lit("[tool_call] ") + (if m.toolName == [] then Lit("unknown") else m.toolName)
      + Lit("(") + Capped(m.content) + Lit(")")
    case ToolResult =>
      Lit("[tool_result") + (if m.toolName == [] then [] else Lit(":") + m.toolName) + Lit("] ") + Capped(m.content)
    case _ => m.content
  }

  function GroupText(group: seq<ImportMessage>): Text {
    Join(NonEmpty(seq(|group|, i requires 0 <= i < |group| => FlatText(group[i]))), [NEWLINE])
  }

  function FlatRole(m: ImportMessage): Role {
    if m.memRole.Some? && m.memRole.value != Other([]) then m.memRole.value else m.role
  }

  /** The flat message of a group; None when its text is blank. */
  function FlatMessage(group: seq<ImportMessage>, sourceKey: Option<Text>): Option<ImportMessage> {
    var text := GroupText(group);
    if IsBlank(text) then None
    else Some(ImportMessage(FlatRole(group[0]), text, sourceKey, group[0].ts, false, [], [], None, None))
  }

  /** Collapsing leaves no whitespace but spaces. */
  lemma {:induction false} CollapsedUnits(s: Text)
    ensures forall u | u in CollapseSpaces(s) :: !IsWhitespace(u) || u == 0x20
    ensures |CollapseSpaces(s)| <= |s|
    ensures IsBlank(CollapseSpaces(s)) <==> IsBlank(s)
  {
    if s != [] {
      CollapsedUnits(s[1..]);
      assert s == [s[0]] + s[1..];
      assert IsBlank(s) <==> IsWhitespace(s[0]) && IsBlank(s[1..]);
    }
  }

  lemma {:induction false} TrimmedUnits(s: Text)
    ensures forall u | u in TrimStart(s) :: u in s
    ensures forall u | u in TrimEnd(s) :: u in s
    ensures IsBlank(s) ==> TrimStart(s) == []
    ensures TrimStart(s) == [] ==> IsBlank(s)
    decreases |s|
  {
    if s != [] {
      TrimmedUnits(s[1..]);
      TrimmedUnits(s[..|s| - 1]);
      assert s == [s[0]] + s[1..];
    }
  }

  /** A tool's text becomes one line of at most 4000 units and an ellipsis. */
  lemma CappedIsOneLine(s: Text)
    ensures NEWLINE !in Capped(s) && |Capped(s)| <= 4001
  {
    var collapsed := CollapseSpaces(s);
    CollapsedUnits(s);
    TrimmedUnits(collapsed);
    TrimmedUnits(TrimStart(collapsed));
    assert NEWLINE !in Trim(collapsed);
  }

  // ---- What stays of a tool's text ----

  /** The words of a text: its longest stretches without whitespace. */
  function Words(s: Text): seq<Text> {
    if s == [] then []
    else if IsWhitespace(s[0]) then Words(s[1..])
    else
      var rest := Words(s[1..]);
      if |s| == 1 || IsWhitespace(s[1]) || rest == [] then [[s[0]]] + rest else [[s[0]] + rest[0]] + rest[1..]
  }

  /** The words with one space between them. */
  function Spaced(s: Text): Text {
    Join(Words(s), [0x20])
  }

  /** A space where the text begins with whitespace. */
  function Lead(s: Text): Text {
    if s != [] && IsWhitespace(s[0]) then [0x20] else []
  }

  /** A space where a text with words ends with whitespace. */
  function Trail(s: Text): Text {
    if s != [] && IsWhitespace(s[|s| - 1]) && !IsBlank(s) then [0x20] else []
  }

  lemma {:induction false} WordsOfBlank(s: Text)
    ensures Words(s) == [] <==> IsBlank(s)
  {
    if s != [] {
      WordsOfBlank(s[1..]);
      assert s == [s[0]] + s[1..];
    }
  }

  /** The spaced words begin and end with a visible unit. */
  lemma {:induction false} SpacedEnds(s: Text)
    requires !IsBlank(s)
    ensures Spaced(s) != [] && !IsWhitespace(Spaced(s)[0]) && !IsWhitespace(Spaced(s)[|Spaced(s)| - 1])
    decreases |s|
  {
    var rest := s[1..];
    assert s == [s[0]] + rest;
    WordsOfBlank(rest);
    if IsWhitespace(s[0]) {
      SpacedEnds(rest);
    } else {
      SpacedCons(s);
      if !IsBlank(rest) {
        SpacedEnds(rest);
      }
    }
  }

  lemma JoinPush(w: Text, words: seq<Text>, separator: Text)
    ensures Join([w] + words, separator) == if words == [] then w else w + separator + Join(words, separator)
  {
    assert ([w] + words)[1..] == words;
  }

  lemma JoinGrow(u: CodeUnit, words: seq<Text>, separator: Text)
    requires words != []
    ensures Join([[u] + words[0]] + words[1..], separator) == [u] + Join(words, separator)
  {
    JoinPush([u] + words[0], words[1..], separator);
    JoinPush(words[0], words[1..], separator);
    assert [words[0]] + words[1..] == words;
    if |words| > 1 {
      var tail := separator + Join(words[1..], separator);
      assert words[0] + separator + Join(words[1..], separator) == words[0] + tail;
      assert [u] + words[0] + separator + Join(words[1..], separator) == [u] + (words[0] + tail);
    }
  }

  /** A visible unit joins the word after it, or stands before the next one. */
  lemma SpacedCons(s: Text)
    requires s != [] && !IsWhitespace(s[0])
    ensures Spaced(s) == if IsBlank(s[1..]) then [s[0]] else [s[0]] + Lead(s[1..]) + Spaced(s[1..])
  {
    var rest := Words(s[1..]);
    WordsOfBlank(s[1..]);
    if rest == [] || IsWhitespace(s[1]) {
      JoinPush([s[0]], rest, [0x20]);
    } else {
      JoinGrow(s[0], rest, [0x20]);
    }
  }

  ghost predicate CollapsesToSpaced(s: Text) {
    CollapseSpaces(s) == Lead(s) + Spaced(s) + Trail(s)
  }

  /** Collapsing leaves the words spaced, with a space before and after where the text had whitespace there. */
  lemma {:induction false} CollapsedIsSpaced(s: Text)
    ensures CollapsesToSpaced(s)
  {
    if s != [] {
      CollapsedIsSpaced(s[1..]);
      if IsWhitespace(s[0]) {
        CollapseBlank(s);
      } else {
        CollapseVisible(s);
      }
    }
  }

  lemma CollapseBlank(s: Text)
    requires s != [] && IsWhitespace(s[0]) && CollapsesToSpaced(s[1..])
    ensures CollapsesToSpaced(s)
  {
    var rest := s[1..];
    if rest == [] {
      assert s == [s[0]];
    } else {
      TrailCons(s);
      assert Spaced(s) == Spaced(rest);
      if !IsWhitespace(rest[0]) {
        assert CollapseSpaces(s) == [0x20] + (Spaced(rest) + Trail(rest));
      }
    }
  }

  lemma CollapseVisible(s: Text)
    requires s != [] && !IsWhitespace(s[0]) && CollapsesToSpaced(s[1..])
    ensures CollapsesToSpaced(s)
  {
    var rest := s[1..];
    AfterVisible(s);
    UnitBefore(s[0], Lead(rest), Spaced(rest), Trail(rest), Spaced(s), Trail(s));
  }

  lemma AfterVisible(s: Text)
    requires s != [] && !IsWhitespace(s[0])
    ensures var rest := s[1..];
            || (Spaced(rest) == [] && Trail(rest) == [] && Spaced(s) == [s[0]] && Trail(s) == Lead(rest))
            || (Spaced(s) == [s[0]] + Lead(rest) + Spaced(rest) && Trail(s) == Trail(rest))
  {
    if IsBlank(s[1..]) {
      BlankAfterVisible(s);
    } else {
      WordsAfterVisible(s);
    }
  }

  lemma BlankAfterVisible(s: Text)
    requires s != [] && !IsWhitespace(s[0]) && IsBlank(s[1..])
    ensures Spaced(s[1..]) == [] && Trail(s[1..]) == [] && Spaced(s) == [s[0]] && Trail(s) == Lead(s[1..])
  {
    SpacedCons(s);
    WordsOfBlank(s[1..]);
    TrailAlone(s);
  }

  lemma WordsAfterVisible(s: Text)
    requires s != [] && !IsWhitespace(s[0]) && !IsBlank(s[1..])
    ensures Spaced(s) == [s[0]] + Lead(s[1..]) + Spaced(s[1..]) && Trail(s) == Trail(s[1..])
  {
    SpacedCons(s);
    TrailCons(s);
  }

  lemma UnitBefore(u: CodeUnit, lead: Text, words: Text, trail: Text, words': Text, trail': Text)
    requires (words == [] && trail == [] && words' == [u] && trail' == lead)
             || (words' == [u] + lead + words && trail' == trail)
    ensures [u] + (lead + words + trail) == words' + trail'
  {
  }

  lemma TrailAlone(s: Text)
    requires s != [] && !IsWhitespace(s[0]) && IsBlank(s[1..])
    ensures Lead(s[1..]) == Trail(s) && Trail(s[1..]) == []
  {
    var rest := s[1..];
    assert s[0] in s;
    assert rest != [] ==> rest[0] in rest && s[|s| - 1] == rest[|rest| - 1] && rest[|rest| - 1] in rest;
  }

  lemma TrailCons(s: Text)
    requires |s| > 1
    ensures IsWhitespace(s[0]) || !IsBlank(s[1..]) ==> Trail(s) == Trail(s[1..])
  {
    assert s == [s[0]] + s[1..];
  }

  /** What is shown of a tool's text. */
  function Shown(s: Text): Text {
    if |Spaced(s)| > 4000 then Spaced(s)[..4000] + [0x2026] else Spaced(s)
  }

  /** A tool's text is shown as its words with one space between them, cut after 4000 units with an ellipsis. */
  lemma CappedIsWords(s: Text)
    ensures Capped(s) == Shown(s)
  {
    CollapsedIsSpaced(s);
    if IsBlank(s) {
      WordsOfBlank(s);
      TrimmedUnits(CollapseSpaces(s));
    } else {
      SpacedEnds(s);
      TrimBoth(Lead(s), Spaced(s), Trail(s));
    }
  }

  /** Calls and results stand in the memory text under their labels, by name; text stands there as it is. */
  lemma FlatTextShows(m: ImportMessage)
    ensures m.role == ToolCall && m.toolName == [] ==>
              FlatText(m) == Lit("[tool_call] unknown(") + Shown(m.content) + Lit(")")
    ensures m.role == ToolCall && m.toolName != [] ==>
              FlatText(m) == Lit("[tool_call] ") + m.toolName + Lit("(") + Shown(m.content) + Lit(")")
    ensures m.role == ToolResult && m.toolName == [] ==> FlatText(m) == Lit("[tool_result] ") + Shown(m.content)
    ensures m.role == ToolResult && m.toolName != [] ==>
              FlatText(m) == Lit("[tool_result:") + m.toolName + Lit("] ") + Shown(m.content)
    ensures m.role !in {ToolCall, ToolResult} ==> FlatText(m) == m.content
  {
    CappedIsWords(m.content);
    assert Lit("[tool_call] unknown(") == Lit("[tool_call] ") + Lit("unknown") + Lit("(");
    assert Lit("[tool_result] ") == Lit("[tool_result") + [] + Lit("] ");
    assert Lit("[tool_result:") == Lit("[tool_result") + Lit(":");
  }

  /** The map's keys in insertion order. */
  function Keys(msgs: seq<ImportMessage>): seq<int> {
    if msgs == [] then []
    else
      var front, key := Keys(msgs[..|msgs| - 1]), Key(msgs[|msgs| - 1]);
      if key in front then front else front + [key]
  }

  /** The map's value at a key: the messages with that key, in order. */
  function GroupAt(msgs: seq<ImportMessage>, key: int): seq<ImportMessage> {
    if msgs == [] then []
    else
      var front, last := GroupAt(msgs[..|msgs| - 1], key), msgs[|msgs| - 1];
      if Key(last) == key then front + [last] else front
  }

  function Groups(msgs: seq<ImportMessage>): (r: seq<seq<ImportMessage>>)
    ensures |r| == |Keys(msgs)|
  {
    var keys := Keys(msgs);
    seq(|keys|, i requires 0 <= i < |keys| => GroupAt(msgs, keys[i]))
  }

  function Flatten(groups: seq<seq<ImportMessage>>, sourceKey: Option<Text>): seq<ImportMessage> {
    if groups == [] then []
    else
      var front := Flatten(groups[..|groups| - 1], sourceKey);
      var m := FlatMessage(groups[|groups| - 1], sourceKey);
      if m.None? then front else front + [m.value]
  }

  lemma {:induction false} KeysAreThoseSeen(msgs: seq<ImportMessage>, key: int)
    ensures key in Keys(msgs) <==> GroupAt(msgs, key) != []
  {
    if msgs != [] {
      KeysAreThoseSeen(msgs[..|msgs| - 1], key);
    }
  }

  function FirstSourceKey(msgs: seq<ImportMessage>): Option<Text> {
    if msgs == [] then None else msgs[0].sourceKey
  }

  function MemoryMessages(msgs: seq<ImportMessage>): seq<ImportMessage> {
    Flatten(Groups(msgs), FirstSourceKey(msgs))
  }

  method ToMemoryMessages(msgs: seq<ImportMessage>) returns (out: seq<ImportMessage>)
    ensures out == MemoryMessages(msgs)
  {
    var keys: seq<int>, groups: map<int, seq<ImportMessage>> := [], map[];
    for i := 0 to |msgs|
      invariant keys == Keys(msgs[..i])
      invariant forall k :: k in groups <==> k in keys
      invariant forall k :: k in groups ==> groups[k] == GroupAt(msgs[..i], k)
    {
      assert msgs[..i + 1][..i] == msgs[..i];
      var m := msgs[i];
      var key := if m.recIdx.Some? then m.recIdx.value else -1;
      KeysAreThoseSeen(msgs[..i], key);
      if key !in groups {
        keys, groups := keys + [key], groups[key := []];
      }
      groups := groups[key := groups[key] + [m]];
    }
    assert msgs[..|msgs|] == msgs;
    out := [];
    for i := 0 to |keys|
      invariant out == Flatten(Groups(msgs)[..i], FirstSourceKey(msgs))
    {
      assert Groups(msgs)[..i + 1][..i] == Groups(msgs)[..i];
      var m := FlatMessage(groups[keys[i]], if msgs == [] then None else msgs[0].sourceKey);
      if m.Some? {
        out := out + [m.value];
      }
    }
    assert Groups(msgs)[..|keys|] == Groups(msgs);
  }

  // ---- Grouping by map equals grouping by adjacency ----

  /** The maximal runs of neighbours with the same key. */
  function Runs(msgs: seq<ImportMessage>): (r: seq<seq<ImportMessage>>)
    ensures msgs != [] ==> r != []
  {
    if msgs == [] then []
    else
      var front, m := Runs(msgs[..|msgs| - 1]), msgs[|msgs| - 1];
      if front != [] && Key(msgs[|msgs| - 2]) == Key(m) then front[..|front| - 1] + [front[|front| - 1] + [m]]
      else front + [[m]]
  }

  ghost predicate Nondecreasing(msgs: seq<ImportMessage>) {
    forall i, j :: 0 <= i < j < |msgs| ==> Key(msgs[i]) <= Key(msgs[j])
  }

  ghost predicate Ascending(keys: seq<int>) {
    forall i, j :: 0 <= i < j < |keys| ==> keys[i] < keys[j]
  }

  lemma AscendingSnoc(keys: seq<int>, k: int)
    requires Ascending(keys) && (keys != [] ==> keys[|keys| - 1] <= k)
    ensures k in keys ==> keys[|keys| - 1] == k
    ensures k !in keys ==> Ascending(keys + [k])
  {
    if k !in keys && keys != [] {
      assert keys[|keys| - 1] in keys;
    }
  }

  lemma {:induction false} KeysSorted(msgs: seq<ImportMessage>)
    requires Nondecreasing(msgs)
    ensures Ascending(Keys(msgs))
    ensures msgs != [] ==> Keys(msgs) != [] && Keys(msgs)[|Keys(msgs)| - 1] == Key(msgs[|msgs| - 1])
  {
    if msgs != [] {
      var n := |msgs| - 1;
      KeysSorted(msgs[..n]);
      if n > 0 {
        assert msgs[..n][n - 1] == msgs[n - 1];
      }
      AscendingSnoc(Keys(msgs[..n]), Key(msgs[n]));
    }
  }

  lemma NewGroup(msgs: seq<ImportMessage>)
    requires msgs != [] && Key(msgs[|msgs| - 1]) !in Keys(msgs[..|msgs| - 1])
    ensures Groups(msgs) == Groups(msgs[..|msgs| - 1]) + [[msgs[|msgs| - 1]]]
  {
    var front, m := msgs[..|msgs| - 1], msgs[|msgs| - 1];
    KeysAreThoseSeen(front, Key(m));
    forall i | 0 <= i < |Keys(front)|
      ensures Groups(msgs)[i] == Groups(front)[i]
    {
      assert Keys(front)[i] in Keys(front);
    }
    assert Keys(msgs) == Keys(front) + [Key(m)];
    assert GroupAt(msgs, Key(m)) == [] + [m] == [m];
  }

  lemma LongerGroup(msgs: seq<ImportMessage>)
    requires msgs != [] && Nondecreasing(msgs)
    requires Key(msgs[|msgs| - 1]) in Keys(msgs[..|msgs| - 1])
    ensures var groups := Groups(msgs[..|msgs| - 1]);
            && groups != []
            && Groups(msgs) == groups[..|groups| - 1] + [groups[|groups| - 1] + [msgs[|msgs| - 1]]]
  {
    var front, m := msgs[..|msgs| - 1], msgs[|msgs| - 1];
    KeysSorted(front);
    KeysSorted(msgs);
    var keys := Keys(front);
    assert Keys(msgs) == keys;
    forall i | 0 <= i < |keys| - 1
      ensures Groups(msgs)[i] == Groups(front)[i]
    {
      assert keys[i] < keys[|keys| - 1] == Key(m);
    }
  }

  /** When indices never go back, the map groups exactly the runs of neighbours. */
  lemma {:induction false} GroupsAreRuns(msgs: seq<ImportMessage>)
    requires Nondecreasing(msgs)
    ensures Groups(msgs) == Runs(msgs)
  {
    if msgs != [] {
      var n := |msgs| - 1;
      var front, m := msgs[..n], msgs[n];
      GroupsAreRuns(front);
      KeysSorted(front);
      KeysSorted(msgs);
      if Key(m) in Keys(front) {
        LongerGroup(msgs);
        assert n > 0 && front[n - 1] == msgs[n - 1];
        assert Keys(front)[|Keys(front)| - 1] == Key(m);
      } else {
        NewGroup(msgs);
        if n > 0 {
          assert front[n - 1] == msgs[n - 1];
          assert Keys(front)[|Keys(front)| - 1] in Keys(front);
        }
      }
    }
  }

  lemma {:induction false} RunsConcat(msgs: seq<ImportMessage>)
    ensures Concat(Runs(msgs)) == msgs
  {
    if msgs != [] {
      var n := |msgs| - 1;
      var front, m := msgs[..n], msgs[n];
      assert msgs == front + [m];
      RunsConcat(front);
      var runs := Runs(front);
      ConcatSnoc(runs, [m]);
      if runs != [] {
        var before, last := runs[..|runs| - 1], runs[|runs| - 1];
        assert runs == before + [last];
        ConcatSnoc(before, last);
        ConcatSnoc(before, last + [m]);
      }
    }
  }

  /** Indices start at 0 and never skip. */
  ghost predicate Stepwise(msgs: seq<ImportMessage>) {
    && (forall i :: 0 <= i < |msgs| ==> msgs[i].recIdx.Some?)
    && (msgs != [] ==> Key(msgs[0]) == 0)
    && (forall i :: 0 < i < |msgs| ==> Key(msgs[i - 1]) <= Key(msgs[i]) <= Key(msgs[i - 1]) + 1)
  }

  lemma {:induction false} StepsSorted(msgs: seq<ImportMessage>, i: nat, j: nat)
    requires Stepwise(msgs) && i <= j < |msgs|
    ensures Key(msgs[i]) <= Key(msgs[j])
    decreases j
  {
    if i < j {
      StepsSorted(msgs, i, j - 1);
    }
  }

  lemma StepwiseNondecreasing(msgs: seq<ImportMessage>)
    requires Stepwise(msgs)
    ensures Nondecreasing(msgs)
  {
    forall i, j | 0 <= i < j < |msgs|
      ensures Key(msgs[i]) <= Key(msgs[j])
    {
      StepsSorted(msgs, i, j);
    }
  }

  ghost predicate AllAt(run: seq<ImportMessage>, k: int) {
    forall m | m in run :: Key(m) == k
  }

  ghost predicate RunsNumbered(runs: seq<seq<ImportMessage>>) {
    forall k :: 0 <= k < |runs| ==> AllAt(runs[k], k)
  }

  /** The k-th run holds the messages of the k-th record. */
  lemma {:induction false} RunsAreRecords(msgs: seq<ImportMessage>)
    requires Stepwise(msgs)
    ensures |Runs(msgs)| == if msgs == [] then 0 else Key(msgs[|msgs| - 1]) + 1
    ensures RunsNumbered(Runs(msgs))
  {
    if msgs != [] {
      var n := |msgs| - 1;
      var front, m := msgs[..n], msgs[n];
      RunsAreRecords(front);
      var runs := Runs(front);
      if n > 0 {
        assert front[n - 1] == msgs[n - 1];
        assert AllAt(runs[|runs| - 1] + [m], Key(msgs[n - 1])) <==> Key(m) == Key(msgs[n - 1]);
      }
    }
  }

  /** Every message of every group has one of these conversation roles. */
  ghost predicate RolesWithin(groups: seq<seq<ImportMessage>>, roles: set<Role>) {
    forall g | g in groups :: forall m | m in g ::
      m.memRole.Some? && m.memRole.value in roles && m.memRole.value != Other([])
  }

  lemma BlankWhenEmpty(group: seq<ImportMessage>)
    requires group == []
    ensures IsBlank(GroupText(group))
  {
  }

  lemma {:induction false} FlattenBounds(groups: seq<seq<ImportMessage>>, sourceKey: Option<Text>, roles: set<Role>)
    requires RolesWithin(groups, roles)
    ensures |Flatten(groups, sourceKey)| <= |groups|
    ensures forall m | m in Flatten(groups, sourceKey) :: m.role in roles
  {
    if groups != [] {
      var front, last := groups[..|groups| - 1], groups[|groups| - 1];
      assert RolesWithin(front, roles) by {
        assert forall g | g in front :: g in groups;
      }
      FlattenBounds(front, sourceKey, roles);
      assert last in groups;
      if last == [] {
        BlankWhenEmpty(last);
      } else {
        assert last[0] in last;
      }
    }
  }

  /** Every record has one of these roles, none of them empty. */
  ghost predicate RecordRoles(p: Parsed, roles: set<Role>) {
    Other([]) !in roles && forall rec | rec in p.records :: rec.role in roles
  }

  /** What the two upload paths may rely on about any parser that numbers its records. */
  lemma TaggedShape(p: Parsed, roles: set<Role>, sourceKey: Text)
    requires WellTagged(p) && RecordRoles(p, roles)
    ensures var msgs := TagAll(p.msgs, sourceKey);
            && Stepwise(msgs)
            && (forall i :: 0 <= i < |msgs| ==> FromRecord(msgs[i], p.records))
            && |p.records| == if msgs == [] then 0 else Key(msgs[|msgs| - 1]) + 1
  {
    var msgs := TagAll(p.msgs, sourceKey);
    forall i | 0 <= i < |msgs|
      ensures FromRecord(msgs[i], p.records)
    {
      assert p.msgs[i] in p.msgs;
      assert p.records[p.msgs[i].recIdx.value] in p.records;
    }
  }

  /**
   * The memory path yields at most one message per record, made from that record's messages, in the order of the
   * records, with one of the records' roles; what it posts fits the limits.
   */
  lemma MemoryPathOfRecords(p: Parsed, roles: set<Role>, sourceKey: Text)
    requires WellTagged(p) && RecordRoles(p, roles)
    ensures var msgs := TagAll(p.msgs, sourceKey);
            && Concat(Runs(msgs)) == msgs
            && |Runs(msgs)| == |p.records|
            && RunsNumbered(Runs(msgs))
            && MemoryMessages(msgs) == Flatten(Runs(msgs), FirstSourceKey(msgs))
            && |MemoryMessages(msgs)| <= |p.records|
            && (forall m | m in MemoryMessages(msgs) :: m.role in roles)
            && (forall m | m in Pieces(MemoryMessages(msgs)) :: 1 <= |m.content| <= MAX_MESSAGE_CHARS)
  {
    var msgs := TagAll(p.msgs, sourceKey);
    TaggedShape(p, roles, sourceKey);
    RunsConcat(msgs);
    RunsAreRecords(msgs);
    StepwiseNondecreasing(msgs);
    GroupsAreRuns(msgs);
    forall g, m | g in Runs(msgs) && m in g
      ensures m.memRole.Some? && m.memRole.value in roles && m.memRole.value != Other([])
    {
      InConcat(Runs(msgs), g, m);
      var i :| 0 <= i < |msgs| && msgs[i] == m;
      assert p.records[m.recIdx.value] in p.records;
    }
    FlattenBounds(Runs(msgs), FirstSourceKey(msgs), roles);
    PiecesFit(MemoryMessages(msgs));
  }

  // ---- The groups of speaking records ----

  lemma TagAppend(a: seq<ImportMessage>, b: seq<ImportMessage>, sourceKey: Text)
    ensures TagAll(a + b, sourceKey) == TagAll(a, sourceKey) + TagAll(b, sourceKey)
  {
  }

  lemma RunsSnoc(msgs: seq<ImportMessage>, m: ImportMessage)
    ensures var runs := Runs(msgs);
            Runs(msgs + [m])
            == if msgs != [] && Key(msgs[|msgs| - 1]) == Key(m) then runs[..|runs| - 1] + [runs[|runs| - 1] + [m]]
               else runs + [[m]]
  {
    var all := msgs + [m];
    assert all[..|all| - 1] == msgs && all[|all| - 1] == m;
    if msgs != [] {
      assert all[|all| - 2] == msgs[|msgs| - 1];
    }
  }

  lemma ReplaceLast<T>(runs: seq<seq<T>>, b: seq<T>, m: T)
    ensures var all := runs + [b]; all[..|all| - 1] + [all[|all| - 1] + [m]] == runs + [b + [m]]
  {
  }

  lemma RunGrows(a: seq<ImportMessage>, b: seq<ImportMessage>, m: ImportMessage)
    requires b != [] && Key(b[|b| - 1]) == Key(m) && Runs(a + b) == Runs(a) + [b]
    ensures Runs(a + (b + [m])) == Runs(a) + [b + [m]]
  {
    RunsSnoc(a + b, m);
    assert a + (b + [m]) == a + b + [m];
    ReplaceLast(Runs(a), b, m);
  }

  /** Messages that all carry a new key form a run of their own. */
  lemma {:induction false} RunsAppend(a: seq<ImportMessage>, b: seq<ImportMessage>, k: int)
    requires b != [] && (forall i :: 0 <= i < |b| ==> Key(b[i]) == k)
    requires a != [] ==> Key(a[|a| - 1]) != k
    ensures Runs(a + b) == Runs(a) + [b]
    decreases |b|
  {
    var front, m := b[..|b| - 1], b[|b| - 1];
    assert b == front + [m];
    if front == [] {
      RunsSnoc(a, m);
    } else {
      RunsAppend(a, front, k);
      RunGrows(a, front, m);
    }
  }

  /** What one record contributes, tagged. */
  function TaggedGroup(rec: Record, k: nat, sourceKey: Text): seq<ImportMessage> {
    TagAll(MessagesOf(rec, rec.frags, k), sourceKey)
  }

  function TaggedGroups(records: seq<Record>, sourceKey: Text): (r: seq<seq<ImportMessage>>)
    ensures |r| == |records|
  {
    seq(|records|, k requires 0 <= k < |records| => TaggedGroup(records[k], k, sourceKey))
  }

  lemma {:induction false} GroupKeys(rec: Record, frags: seq<Frag>, k: nat)
    ensures forall m | m in MessagesOf(rec, frags, k) :: m.recIdx == Some(k) && m.memRole == Some(rec.role)
  {
    if frags != [] {
      GroupKeys(rec, frags[..|frags| - 1], k);
    }
  }

  lemma TaggedGroupKeys(rec: Record, k: nat, sourceKey: Text)
    requires Speaks(rec)
    ensures var group := TaggedGroup(rec, k, sourceKey);
            && group != []
            && (forall i :: 0 <= i < |group| ==> Key(group[i]) == k)
            && (rec.role != Other([]) ==> FlatRole(group[0]) == rec.role)
  {
    GroupKeys(rec, rec.frags, k);
    MessagesCarryFrags(rec, rec.frags, k);
    var own := MessagesOf(rec, rec.frags, k);
    assert forall i :: 0 <= i < |own| ==> own[i] in own;
  }

  ghost predicate AllSpeak(records: seq<Record>) {
    forall rec | rec in records :: Speaks(rec)
  }

  /** The messages of speaking records end with one of the last record. */
  lemma LastOfRecords(records: seq<Record>, sourceKey: Text)
    requires records != [] && AllSpeak(records)
    ensures var msgs := TagAll(AllMessages(records), sourceKey);
            msgs != [] && Key(msgs[|msgs| - 1]) == |records| - 1
  {
    var n := |records| - 1;
    assert records[n] in records;
    TaggedGroupKeys(records[n], n, sourceKey);
    TagAppend(AllMessages(records[..n]), MessagesOf(records[n], records[n].frags, n), sourceKey);
  }

  lemma {:induction false} RunsOfRecords(records: seq<Record>, sourceKey: Text)
    requires AllSpeak(records)
    ensures Runs(TagAll(AllMessages(records), sourceKey)) == TaggedGroups(records, sourceKey)
  {
    if records != [] {
      var n := |records| - 1;
      var before := records[..n];
      assert records[n] in records && forall rec | rec in before :: rec in records;
      RunsOfRecords(before, sourceKey);
      TagAppend(AllMessages(before), MessagesOf(records[n], records[n].frags, n), sourceKey);
      TaggedGroupKeys(records[n], n, sourceKey);
      if before != [] {
        LastOfRecords(before, sourceKey);
      }
      RunsAppend(TagAll(AllMessages(before), sourceKey), TaggedGroup(records[n], n, sourceKey), n);
      GroupsSnoc(records, sourceKey);
    }
  }

  lemma GroupsSnoc(records: seq<Record>, sourceKey: Text)
    requires records != []
    ensures var n := |records| - 1;
            TaggedGroups(records, sourceKey) == TaggedGroups(records[..n], sourceKey) + [TaggedGroup(records[n], n, sourceKey)]
  {
  }

  /** The memory messages of numbered records are those of the records' groups, one by one. */
  lemma MemoryOfRecords(p: Parsed, roles: set<Role>, sourceKey: Text)
    requires WellTagged(p) && RecordRoles(p, roles)
    requires p.msgs == AllMessages(p.records) && AllSpeak(p.records)
    ensures MemoryMessages(TagAll(p.msgs, sourceKey))
         == Flatten(TaggedGroups(p.records, sourceKey), FirstSourceKey(TagAll(p.msgs, sourceKey)))
  {
    TaggedShape(p, roles, sourceKey);
    StepwiseNondecreasing(TagAll(p.msgs, sourceKey));
    GroupsAreRuns(TagAll(p.msgs, sourceKey));
    RunsOfRecords(p.records, sourceKey);
  }

  lemma {:induction false} SameFlatTexts(rec: Record, frags: seq<Frag>, j: nat, k: nat)
    ensures |MessagesOf(rec, frags, j)| == |MessagesOf(rec, frags, k)|
    ensures forall i :: 0 <= i < |MessagesOf(rec, frags, j)| ==>
              FlatText(MessagesOf(rec, frags, j)[i]) == FlatText(MessagesOf(rec, frags, k)[i])
  {
    if frags != [] {
      SameFlatTexts(rec, frags[..|frags| - 1], j, k);
    }
  }

  /** The text a record gives does not depend on its number. */
  function RecordText(rec: Record): Text {
    GroupText(MessagesOf(rec, rec.frags, 0))
  }

  lemma GroupSaysRecord(rec: Record, k: nat, sourceKey: Text)
    ensures GroupText(TaggedGroup(rec, k, sourceKey)) == RecordText(rec)
  {
    SameFlatTexts(rec, rec.frags, 0, k);
    var a, b := MessagesOf(rec, rec.frags, 0), TaggedGroup(rec, k, sourceKey);
    assert seq(|a|, i requires 0 <= i < |a| => FlatText(a[i])) == seq(|b|, i requires 0 <= i < |b| => FlatText(b[i]));
  }

  const SPOKEN: set<Role> := {User, Assistant}

  /**
   * For every transcript: one memory message per record at most, in the order of the records, grouped by map exactly
   * as by adjacency, with role user or assistant.
   */
  lemma MemoryPathOfTranscript(js: Js, clock: Clock, text: Text, sourceKey: Text)
    ensures var p := Parse(js, clock, text);
            var msgs := TagAll(p.msgs, sourceKey);
            && Concat(Runs(msgs)) == msgs
            && |Runs(msgs)| == |p.records|
            && RunsNumbered(Runs(msgs))
            && MemoryMessages(msgs) == Flatten(Runs(msgs), FirstSourceKey(msgs))
            && |MemoryMessages(msgs)| <= |p.records|
            && (forall m | m in MemoryMessages(msgs) :: m.role in SPOKEN)
            && (forall m | m in Pieces(MemoryMessages(msgs)) :: 1 <= |m.content| <= MAX_MESSAGE_CHARS)
  {
    ParseTagsRecords(js, clock, TextLines.Lines(text));
    MemoryPathOfRecords(Parse(js, clock, text), SPOKEN, sourceKey);
  }

  // ---- How many groups ----

  function Singles(msgs: seq<ImportMessage>): (r: seq<seq<ImportMessage>>)
    ensures |r| == |msgs|
  {
    seq(|msgs|, i requires 0 <= i < |msgs| => [msgs[i]])
  }

  lemma {:induction false} KeysSeen(msgs: seq<ImportMessage>, key: int)
    ensures key in Keys(msgs) <==> exists i :: 0 <= i < |msgs| && Key(msgs[i]) == key
  {
    if msgs != [] {
      var n := |msgs| - 1;
      KeysSeen(msgs[..n], key);
      if key in Keys(msgs[..n]) {
        var i :| 0 <= i < n && Key(msgs[..n][i]) == key;
        assert Key(msgs[i]) == key;
      }
      if exists i :: 0 <= i < |msgs| && Key(msgs[i]) == key {
        var i :| 0 <= i < |msgs| && Key(msgs[i]) == key;
        assert i < n ==> msgs[..n][i] == msgs[i];
      }
    }
  }

  ghost predicate DistinctInts(keys: seq<int>) {
    forall i, j :: 0 <= i < j < |keys| ==> keys[i] != keys[j]
  }

  lemma {:induction false} KeysDistinct(msgs: seq<ImportMessage>)
    ensures DistinctInts(Keys(msgs))
  {
    if msgs != [] {
      KeysDistinct(msgs[..|msgs| - 1]);
    }
  }

  /** The messages form a single group exactly when they all carry the same record index, or all carry none. */
  lemma OneGroupIff(msgs: seq<ImportMessage>)
    requires msgs != []
    ensures |Groups(msgs)| == 1 <==> forall i :: 0 <= i < |msgs| ==> Key(msgs[i]) == Key(msgs[0])
  {
    var keys := Keys(msgs);
    KeysDistinct(msgs);
    KeysSeen(msgs, Key(msgs[0]));
    if |keys| == 1 {
      forall i | 0 <= i < |msgs|
        ensures Key(msgs[i]) == Key(msgs[0])
      {
        KeysSeen(msgs, Key(msgs[i]));
      }
    }
    if forall i :: 0 <= i < |msgs| ==> Key(msgs[i]) == Key(msgs[0]) {
      forall k | 0 <= k < |keys|
        ensures keys[k] == Key(msgs[0])
      {
        KeysSeen(msgs, keys[k]);
      }
      assert |keys| > 1 ==> keys[0] == keys[1];
    }
  }

  lemma {:induction false} GroupHasKey(msgs: seq<ImportMessage>, key: int)
    ensures forall m | m in GroupAt(msgs, key) :: Key(m) == key
  {
    if msgs != [] {
      GroupHasKey(msgs[..|msgs| - 1], key);
    }
  }

  ghost predicate KeysDiffer(msgs: seq<ImportMessage>) {
    forall i, j :: 0 <= i < j < |msgs| ==> Key(msgs[i]) != Key(msgs[j])
  }

  lemma {:induction false} GroupsApart(msgs: seq<ImportMessage>)
    requires KeysDiffer(msgs)
    ensures Groups(msgs) == Singles(msgs)
  {
    if msgs != [] {
      var n := |msgs| - 1;
      GroupsApart(msgs[..n]);
      KeysSeen(msgs[..n], Key(msgs[n]));
      assert forall i :: 0 <= i < n ==> msgs[..n][i] == msgs[i];
      NewGroup(msgs);
      assert Singles(msgs) == Singles(msgs[..n]) + [[msgs[n]]];
    }
  }

  lemma SinglesKeys(msgs: seq<ImportMessage>, i: nat)
    requires Groups(msgs) == Singles(msgs) && i < |msgs|
    ensures Keys(msgs)[i] == Key(msgs[i])
  {
    GroupHasKey(msgs, Keys(msgs)[i]);
    assert Groups(msgs)[i] == [msgs[i]] && msgs[i] in Groups(msgs)[i];
  }

  /** Every message is a group of its own exactly when no two carry the same record index. */
  lemma GroupPerMessageIff(msgs: seq<ImportMessage>)
    ensures Groups(msgs) == Singles(msgs) <==> KeysDiffer(msgs)
  {
    if Groups(msgs) == Singles(msgs) {
      KeysDistinct(msgs);
      forall i, j | 0 <= i < j < |msgs|
        ensures Key(msgs[i]) != Key(msgs[j])
      {
        SinglesKeys(msgs, i);
        SinglesKeys(msgs, j);
      }
    } else if KeysDiffer(msgs) {
      GroupsApart(msgs);
    }
  }

  lemma {:induction false} WholeGroup(msgs: seq<ImportMessage>, key: int)
    requires forall i :: 0 <= i < |msgs| ==> Key(msgs[i]) == key
    ensures GroupAt(msgs, key) == msgs
  {
    if msgs != [] {
      var n := |msgs| - 1;
      assert msgs == msgs[..n] + [msgs[n]];
      WholeGroup(msgs[..n], key);
    }
  }

  /** Messages that share their index, or lack it, collapse into a single memory message in the first one's role. */
  lemma SameIndexCollapses(msgs: seq<ImportMessage>)
    requires msgs != [] && forall i :: 0 <= i < |msgs| ==> Key(msgs[i]) == Key(msgs[0])
    ensures Groups(msgs) == [msgs]
    ensures |MemoryMessages(msgs)| <= 1
    ensures MemoryMessages(msgs) != [] ==> MemoryMessages(msgs)[0].role == FlatRole(msgs[0])
  {
    OneGroupIff(msgs);
    KeysSeen(msgs, Keys(msgs)[0]);
    WholeGroup(msgs, Key(msgs[0]));
    assert Groups(msgs)[0] == msgs;
    assert [msgs][..0] == [];
    assert Flatten([msgs], FirstSourceKey(msgs))
        == var m := FlatMessage(msgs, FirstSourceKey(msgs)); if m.None? then [] else [] + [m.value];
  }

  // ---- Flat text of a content value ----

  /** The flat text of a fragment is that of the message it would become. */
  function FlatFrag(f: Frag): Text {
    FlatText(ImportMessage(if f.role.Some? then f.role.value else User, f.content, None, None, false,
                           f.toolCallId, f.toolName, None, None))
  }

  function FlatFrags(frags: seq<Frag>): seq<Text> {
    seq(|frags|, i requires 0 <= i < |frags| => FlatFrag(frags[i]))
  }

  /** None when the expansion throws. */
  function ExtractText(js: Js, content: Json): Option<Text> {
    var frags := ExpandContent(js, content);
    if frags.None? then None else Some(Join(NonEmpty(FlatFrags(frags.value)), [NEWLINE]))
  }

  /** The flat text of one fragment is that of any message that says the same in the same role. */
  lemma ExtractShows(js: Js, content: Json, f: Frag, m: ImportMessage)
    requires ExpandContent(js, content) == Some([f])
    requires m.content == f.content && m.toolName == f.toolName
    ensures f.role == Some(m.role) || (f.role.None? && m.role !in {ToolCall, ToolResult}) ==>
              ExtractText(js, content) == Some(FlatText(m))
  {
    var text := FlatFrag(f);
    assert FlatFrags([f]) == [text];
    var none: seq<Text> := [];
    assert [text][1..] == none && NonEmpty([text]) == if text == [] then none else [text] + NonEmpty(none);
  }

  // ---- The whole upload ----

  datatype Extract = OnlyMemory | OnlySkill | Both

  /** The memory path's plan: the batches of the flat messages. */
  function MemoryPosts(msgs: seq<ImportMessage>): seq<seq<ImportMessage>> {
    Batches(MemoryMessages(msgs))
  }

  method UploadBatches(msgs: seq<ImportMessage>, respond: nat -> int)
    returns (sent: seq<seq<ImportMessage>>, ok: bool)
    ensures SentPrefix(MemoryPosts(msgs), sent, respond, ok)
    ensures ok ==> sent == MemoryPosts(msgs)
  {
    var mem := ToMemoryMessages(msgs);
    var batches := BatchMessages(mem);
    sent, ok := PostBatches(batches, respond, []);
    assert [] + batches == batches;
  }

  datatype UploadResult = Done | MemoryRefused | SkillRefused

  /**
   * Both paths see the same tagged messages. Each sends a prefix of its plan, all of it unless a post is refused;
   * a refusal on the memory path keeps the skill path from starting.
   */
  method UploadSession(raw: seq<ImportMessage>, sourceKey: Text, extract: Extract,
                       memoryReplies: nat -> int, skillReplies: nat -> int)
    returns (memory: seq<seq<ImportMessage>>, skill: seq<seq<ImportMessage>>, result: UploadResult)
    ensures var plan := if extract.OnlySkill? then [] else MemoryPosts(TagAll(raw, sourceKey));
            && SentPrefix(plan, memory, memoryReplies, result != MemoryRefused)
            && (result != MemoryRefused ==> memory == plan)
    ensures var plan := if extract.OnlyMemory? then [] else Posts(TagAll(raw, sourceKey));
            if result == MemoryRefused then skill == []
            else SentPrefix(plan, skill, skillReplies, result == Done) && (result == Done ==> skill == plan)
  {
    memory, skill, result := [], [], Done;
    var msgs := TagAll(raw, sourceKey);
    var ok := true;
    if |msgs| == 0 {
      assert MemoryPosts([]) == [] && Posts([]) == [];
      return;
    }
    if extract != OnlySkill {
      memory, ok := UploadBatches(msgs, memoryReplies);
      if !ok {
        result := MemoryRefused;
        return;
      }
    }
    if extract != OnlyMemory {
      skill, ok := UploadViaConversationAdd(msgs, skillReplies);
      if !ok {
        result := SkillRefused;
      }
    }
  }

  // ---- Rounds and records ----

  lemma SameRecordBetween(msgs: seq<ImportMessage>, i: nat, j: nat)
    requires Stepwise(msgs) && i <= j < |msgs| && msgs[i].recIdx == msgs[j].recIdx
    ensures forall k :: i <= k <= j ==> msgs[k].recIdx == msgs[i].recIdx
  {
    forall k | i <= k <= j
      ensures msgs[k].recIdx == msgs[i].recIdx
    {
      StepsSorted(msgs, i, k);
      StepsSorted(msgs, k, j);
    }
  }

  /** A round ends directly after an assistant text whose record counts as having no tool call, and only there. */
  lemma RoundsEndAfterAnswers(p: Parsed, roles: set<Role>, sourceKey: Text, i: nat)
    requires WellTagged(p) && RecordRoles(p, roles) && i < |p.msgs|
    ensures var msgs := TagAll(p.msgs, sourceKey);
            && InRound(AllRounds(msgs), FinalAnswersBefore(msgs, i), i, msgs[i])
            && FromRecord(msgs[i], p.records)
            && (IsFinalAnswer(msgs[i]) <==>
                  msgs[i].role == Assistant && !p.records[msgs[i].recIdx.value].hasTool)
  {
    TaggedShape(p, roles, sourceKey);
    RoundOfMessage(TagAll(p.msgs, sourceKey), i);
  }

  /**
   * Two messages of one record are put in different rounds exactly when the record counts as having no tool call and
   * an assistant text stands at or after the first and before the second.
   */
  lemma RoundsSplitRecords(p: Parsed, roles: set<Role>, sourceKey: Text, i: nat, j: nat)
    requires WellTagged(p) && RecordRoles(p, roles)
    requires i <= j < |p.msgs| && p.msgs[i].recIdx == p.msgs[j].recIdx
    ensures var msgs := TagAll(p.msgs, sourceKey);
            && msgs[i].recIdx.Some? && msgs[i].recIdx.value < |p.records|
            && (FinalAnswersBefore(msgs, i) != FinalAnswersBefore(msgs, j)
                <==> !p.records[msgs[i].recIdx.value].hasTool
                     && exists k :: i <= k < j && msgs[k].role == Assistant)
  {
    var msgs := TagAll(p.msgs, sourceKey);
    TaggedShape(p, roles, sourceKey);
    SameRecordBetween(msgs, i, j);
    FinalAnswersBetween(msgs, i, j);
    forall k | i <= k < j
      ensures IsFinalAnswer(msgs[k])
           == (msgs[k].role == Assistant && !p.records[msgs[i].recIdx.value].hasTool)
    {
      assert FromRecord(msgs[k], p.records);
    }
  }

  /** The line holds a record that shows a tool call at its top level or at that of its message. */
  ghost predicate LineShowsCall(js: Js, line: Text) {
    js.parse(Trim(line)).Some? && RecordBody(js.parse(Trim(line)).value).Some? &&
    var rec := RecordBody(js.parse(Trim(line)).value).value;
    ShowsCall(rec) || exists message :: HasMessage(rec, message) && ShowsCall(message)
  }

  lemma LineHasTool(js: Js, clock: Clock, line: Text)
    requires ReadLine(js, clock, line).Some?
    ensures ReadLine(js, clock, line).value.hasTool <==> LineShowsCall(js, line)
  {
    HasToolIff(js, clock, js.parse(Trim(line)).value);
  }

  lemma {:induction false} MessageFinal(rec: Record, frags: seq<Frag>, recIdx: nat)
    requires FragsTyped(frags) && Spoken(rec.role)
    ensures forall m | m in MessagesOf(rec, frags, recIdx) ::
              IsFinalAnswer(m) <==> m.role == Assistant && !rec.hasTool
  {
    if frags != [] {
      assert frags[|frags| - 1] in frags && forall f | f in frags[..|frags| - 1] :: f in frags;
      MessageFinal(rec, frags[..|frags| - 1], recIdx);
    }
  }

  lemma LineFinal(js: Js, clock: Clock, before: seq<Text>, line: Text, i: nat)
    requires i < |LineMessages(js, clock, before, line)|
    ensures var m := LineMessages(js, clock, before, line)[i];
            IsFinalAnswer(m) <==> m.role == Assistant && !LineShowsCall(js, line)
  {
    var rec := ReadLine(js, clock, line).value;
    RecordTyped(js, clock, line);
    LineHasTool(js, clock, line);
    MessageFinal(rec, rec.frags, |ParseLines(js, clock, before).records|);
    assert LineMessages(js, clock, before, line)[i] in LineMessages(js, clock, before, line);
  }

  /** An assistant's text among the messages a line adds, at or after i and before j of the whole session. */
  ghost predicate TextBetween(own: seq<ImportMessage>, start: nat, i: nat, j: nat) {
    exists k :: 0 <= k < |own| && i <= start + k < j && own[k].role == Assistant
  }

  /** The stretch of the session whose closing texts are the assistant's, unless the stretch shows a call. */
  ghost predicate Stretch(all: seq<ImportMessage>, own: seq<ImportMessage>, start: nat, shows: bool) {
    && start + |own| <= |all|
    && forall k :: 0 <= k < |own| ==>
         all[start + k] == own[k] && (IsFinalAnswer(own[k]) <==> own[k].role == Assistant && !shows)
  }

  lemma AnswerInStretch(all: seq<ImportMessage>, own: seq<ImportMessage>, start: nat, shows: bool, sourceKey: Text,
                        i: nat, j: nat)
    requires Stretch(all, own, start, shows) && start <= i <= j < start + |own|
    ensures var msgs := TagAll(all, sourceKey);
            (forall k :: i <= k < j ==> !IsFinalAnswer(msgs[k])) <==> shows || !TextBetween(own, start, i, j)
  {
    var msgs := TagAll(all, sourceKey);
    forall k | i <= k < j
      ensures IsFinalAnswer(msgs[k]) <==> own[k - start].role == Assistant && !shows
    {
      assert all[start + (k - start)] == own[k - start];
    }
    if !shows && TextBetween(own, start, i, j) {
      var k :| 0 <= k < |own| && i <= start + k < j && own[k].role == Assistant;
      assert IsFinalAnswer(msgs[start + k]);
    }
  }

  lemma StretchSplitIff(all: seq<ImportMessage>, own: seq<ImportMessage>, start: nat, shows: bool, sourceKey: Text,
                        i: nat, j: nat)
    requires Stretch(all, own, start, shows) && start <= i <= j < start + |own|
    ensures InOneRound(TagAll(all, sourceKey), i, j) <==> shows || !TextBetween(own, start, i, j)
  {
    var msgs := TagAll(all, sourceKey);
    AnswerInStretch(all, own, start, shows, sourceKey, i, j);
    FinalAnswersBetween(msgs, i, j);
    if shows || !TextBetween(own, start, i, j) {
      NoAnswerBetween(msgs, i, j);
    }
  }

  ghost predicate TextsClose(own: seq<ImportMessage>, shows: bool) {
    forall k :: 0 <= k < |own| ==> (IsFinalAnswer(own[k]) <==> own[k].role == Assistant && !shows)
  }

  lemma LineTextsClose(js: Js, clock: Clock, before: seq<Text>, line: Text)
    ensures TextsClose(LineMessages(js, clock, before, line), LineShowsCall(js, line))
  {
    forall k | 0 <= k < |LineMessages(js, clock, before, line)|
      ensures var m := LineMessages(js, clock, before, line)[k];
              IsFinalAnswer(m) <==> m.role == Assistant && !LineShowsCall(js, line)
    {
      LineFinal(js, clock, before, line, k);
    }
  }

  lemma PrefixIsStretch(head: seq<ImportMessage>, own: seq<ImportMessage>, all: seq<ImportMessage>, shows: bool)
    requires head + own <= all && TextsClose(own, shows)
    ensures Stretch(all, own, |head|, shows)
  {
    forall k | 0 <= k < |own|
      ensures all[|head| + k] == own[k]
    {
      assert (head + own)[|head| + k] == own[k];
    }
  }

  /**
   * For every line of every transcript: two of its messages are put in different rounds exactly when the line shows
   * no tool call at the top level of its record or message and an assistant's text stands at or after the first and
   * before the second. In particular a text is never separated from such a call.
   */
  lemma RoundsKeepTopLevelCalls(js: Js, clock: Clock, before: seq<Text>, line: Text, after: seq<Text>,
                                sourceKey: Text, i: nat, j: nat)
    requires var start := |ParseLines(js, clock, before).msgs|;
             start <= i <= j < start + |LineMessages(js, clock, before, line)|
    ensures var msgs := TagAll(ParseLines(js, clock, before + [line] + after).msgs, sourceKey);
            var own, start := LineMessages(js, clock, before, line), |ParseLines(js, clock, before).msgs|;
            && j < |msgs|
            && (InOneRound(msgs, i, j) <==> LineShowsCall(js, line) || !TextBetween(own, start, i, j))
  {
    LineInTranscript(js, clock, before, line, after);
    LineTextsClose(js, clock, before, line);
    PrefixIsStretch(ParseLines(js, clock, before).msgs, LineMessages(js, clock, before, line),
                    ParseLines(js, clock, before + [line] + after).msgs, LineShowsCall(js, line));
    StretchSplitIff(ParseLines(js, clock, before + [line] + after).msgs, LineMessages(js, clock, before, line),
                    |ParseLines(js, clock, before).msgs|, LineShowsCall(js, line), sourceKey, i, j);
  }
}
