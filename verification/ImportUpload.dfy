/**
 * From normalised messages to requests: pieces and batches, rounds for the skill path, flat messages for the
 * memory path (agents/asset-import.ts:828-849, 928-1100, 1159-1190).
 */
module ImportUpload {
  import opened JsText
  import opened JsValue
  import opened Utf16Split
  import opened ImportModel

  const MAX_MESSAGES_PER_REQUEST: nat := 100

  // ---- Batches ----

  predicate IsValid(m: ImportMessage) {
    m.role != Other([]) && !IsBlank(m.content)
  }

  function PieceOf(m: ImportMessage, piece: Text): ImportMessage {
    ImportMessage(m.role, piece, m.sourceKey, m.ts, false, m.toolCallId, m.toolName, None, None)
  }

  function PiecesOf(m: ImportMessage): (r: seq<ImportMessage>)
    ensures |r| == |SplitLong(m.content)|
  {
    var parts := SplitLong(m.content);
    seq(|parts|, i requires 0 <= i < |parts| => PieceOf(m, parts[i]))
  }

  /** The pieces of the valid messages, in order. */
  function Pieces(msgs: seq<ImportMessage>): seq<ImportMessage> {
    if msgs == [] then []
    else
      var front, last := Pieces(msgs[..|msgs| - 1]), msgs[|msgs| - 1];
      if IsValid(last) then front + PiecesOf(last) else front
  }

  function Chunked(flat: seq<ImportMessage>): seq<seq<ImportMessage>> {
    if |flat| == 0 then []
    else if |flat| <= MAX_MESSAGES_PER_REQUEST then [flat]
    else [flat[..MAX_MESSAGES_PER_REQUEST]] + Chunked(flat[MAX_MESSAGES_PER_REQUEST..])
  }

  function Batches(msgs: seq<ImportMessage>): seq<seq<ImportMessage>> {
    Chunked(Pieces(msgs))
  }

  method PushPieces(m: ImportMessage, flat: seq<ImportMessage>) returns (out: seq<ImportMessage>)
    ensures out == flat + PiecesOf(m)
  {
    var parts := SplitLongContent(m.content);
    out := flat;
    for k := 0 to |parts|
      invariant out == flat + PiecesOf(m)[..k]
    {
      out := out + [PieceOf(m, parts[k])];
    }
    assert PiecesOf(m)[..|parts|] == PiecesOf(m);
  }

  method FlattenPieces(msgs: seq<ImportMessage>) returns (flat: seq<ImportMessage>)
    ensures flat == Pieces(msgs)
  {
    flat := [];
    for i := 0 to |msgs|
      invariant flat == Pieces(msgs[..i])
    {
      assert msgs[..i + 1][..i] == msgs[..i];
      if IsValid(msgs[i]) {
        flat := PushPieces(msgs[i], flat);
      }
    }
    assert msgs[..|msgs|] == msgs;
  }

  method BatchMessages(messages: seq<ImportMessage>) returns (batches: seq<seq<ImportMessage>>)
    ensures batches == Batches(messages)
  {
    var flat := FlattenPieces(messages);
    batches := [];
    var i := 0;
    while i < |flat|
      invariant 0 <= i
      invariant i <= |flat| ==> batches + Chunked(flat[i..]) == Chunked(flat)
      invariant i > |flat| ==> batches == Chunked(flat)
    {
      var end := if i + MAX_MESSAGES_PER_REQUEST < |flat| then i + MAX_MESSAGES_PER_REQUEST else |flat|;
      if i + MAX_MESSAGES_PER_REQUEST >= |flat| {
        assert flat[i..] == flat[i..end];
        assert Chunked(flat[i..]) == [flat[i..end]];
      } else {
        assert flat[i..][..MAX_MESSAGES_PER_REQUEST] == flat[i..end];
        assert flat[i..][MAX_MESSAGES_PER_REQUEST..] == flat[end..];
      }
      batches := batches + [flat[i..end]];
      i := i + MAX_MESSAGES_PER_REQUEST;
    }
  }

  lemma {:induction false} ChunkedFits(flat: seq<ImportMessage>)
    ensures Concat(Chunked(flat)) == flat
    ensures forall b | b in Chunked(flat) :: 1 <= |b| <= MAX_MESSAGES_PER_REQUEST
  {
    if |flat| > MAX_MESSAGES_PER_REQUEST {
      ChunkedFits(flat[MAX_MESSAGES_PER_REQUEST..]);
      assert Chunked(flat)[1..] == Chunked(flat[MAX_MESSAGES_PER_REQUEST..]);
    } else if flat != [] {
      assert Concat([flat]) == flat + Concat<ImportMessage>([]);
    }
  }

  lemma {:induction false} PiecesFit(msgs: seq<ImportMessage>)
    ensures forall p | p in Pieces(msgs) :: 1 <= |p.content| <= MAX_MESSAGE_CHARS && p.role != Other([])
  {
    if msgs != [] {
      var last := msgs[|msgs| - 1];
      PiecesFit(msgs[..|msgs| - 1]);
      SplitFits(last.content);
      forall p | p in PiecesOf(last) && IsValid(last)
        ensures 1 <= |p.content| <= MAX_MESSAGE_CHARS && p.role != Other([])
      {
        var i :| 0 <= i < |PiecesOf(last)| && PiecesOf(last)[i] == p;
        assert SplitLong(last.content)[i] in SplitLong(last.content);
      }
    }
  }

  function Contents(msgs: seq<ImportMessage>): (r: seq<Text>)
    ensures |r| == |msgs|
  {
    seq(|msgs|, i requires 0 <= i < |msgs| => msgs[i].content)
  }

  /** A piece keeps its message's role, time, origin and pairing anchor. */
  ghost predicate IsPieceOf(p: ImportMessage, m: ImportMessage) {
    && p.role == m.role && p.ts == m.ts && p.sourceKey == m.sourceKey
    && p.toolCallId == m.toolCallId && p.toolName == m.toolName
  }

  /** The pieces of a message put together are the message. */
  lemma PiecesCarryMessage(m: ImportMessage)
    ensures Concat(Contents(PiecesOf(m))) == m.content
    ensures forall p | p in PiecesOf(m) :: IsPieceOf(p, m)
  {
    SplitFits(m.content);
    assert Contents(PiecesOf(m)) == SplitLong(m.content);
  }

  /** Every piece posted comes from a valid message, with its role and pairing anchor. */
  lemma {:induction false} PieceOrigin(msgs: seq<ImportMessage>, p: ImportMessage)
    requires p in Pieces(msgs)
    ensures exists m :: m in msgs && IsValid(m) && p in PiecesOf(m) && IsPieceOf(p, m)
  {
    var front, last := msgs[..|msgs| - 1], msgs[|msgs| - 1];
    PiecesCarryMessage(last);
    if p in Pieces(front) {
      PieceOrigin(front, p);
      var m :| m in front && IsValid(m) && p in PiecesOf(m) && IsPieceOf(p, m);
      assert m in msgs;
    } else {
      assert last in msgs;
    }
  }

  lemma {:induction false} PiecesAppend(a: seq<ImportMessage>, b: seq<ImportMessage>)
    ensures Pieces(a + b) == Pieces(a) + Pieces(b)
    decreases |b|
  {
    if b == [] {
      assert a + b == a;
    } else {
      var front, last := b[..|b| - 1], b[|b| - 1];
      assert (a + b)[..|a + b| - 1] == a + front && (a + b)[|a + b| - 1] == last;
      PiecesAppend(a, front);
    }
  }

  // ---- Rounds ----

  /** The loop's variables: the closed rounds and the one being collected. */
  datatype Cut = Cut(rounds: seq<seq<ImportMessage>>, current: seq<ImportMessage>)

  function CutRounds(msgs: seq<ImportMessage>): Cut {
    if msgs == [] then Cut([], [])
    else
      var c, m := CutRounds(msgs[..|msgs| - 1]), msgs[|msgs| - 1];
      if IsFinalAnswer(m) then Cut(c.rounds + [c.current + [m]], []) else Cut(c.rounds, c.current + [m])
  }

  predicate WorthSubmitting(round: seq<ImportMessage>) {
    exists m | m in round :: IsAgentSide(m)
  }

  function FilterRounds(rounds: seq<seq<ImportMessage>>): seq<seq<ImportMessage>> {
    if rounds == [] then []
    else
      var front, last := FilterRounds(rounds[..|rounds| - 1]), rounds[|rounds| - 1];
      if WorthSubmitting(last) then front + [last] else front
  }

  function AllRounds(msgs: seq<ImportMessage>): seq<seq<ImportMessage>> {
    var c := CutRounds(msgs);
    if c.current == [] then c.rounds else c.rounds + [c.current]
  }

  function Rounds(msgs: seq<ImportMessage>): seq<seq<ImportMessage>> {
    FilterRounds(AllRounds(msgs))
  }

  method SplitIntoRounds(msgs: seq<ImportMessage>) returns (kept: seq<seq<ImportMessage>>)
    ensures kept == Rounds(msgs)
  {
    var rounds: seq<seq<ImportMessage>>, current: seq<ImportMessage> := [], [];
    for i := 0 to |msgs|
      invariant Cut(rounds, current) == CutRounds(msgs[..i])
    {
      assert msgs[..i + 1][..i] == msgs[..i];
      current := current + [msgs[i]];
      if msgs[i].role == Assistant && !msgs[i].hasToolUse {
        rounds := rounds + [current];
        current := [];
      }
    }
    assert msgs[..|msgs|] == msgs;
    if |current| > 0 {
      rounds := rounds + [current];
    }
    kept := [];
    for i := 0 to |rounds|
      invariant kept == FilterRounds(rounds[..i])
    {
      assert rounds[..i + 1][..i] == rounds[..i];
      if exists m | m in rounds[i] :: m.role in {Assistant, ToolCall, ToolResult} {
        kept := kept + [rounds[i]];
      }
    }
    assert rounds[..|rounds|] == rounds;
  }

  ghost predicate NoFinalAnswer(msgs: seq<ImportMessage>) {
    forall m | m in msgs :: !IsFinalAnswer(m)
  }

  /** A closed round ends with its only final answer. */
  ghost predicate Closed(round: seq<ImportMessage>) {
    round != [] && IsFinalAnswer(round[|round| - 1]) && NoFinalAnswer(round[..|round| - 1])
  }

  /** The rounds are the session cut directly after each final answer. */
  lemma {:induction false} CutAtFinalAnswers(msgs: seq<ImportMessage>)
    ensures var c := CutRounds(msgs);
            && Concat(c.rounds) + c.current == msgs
            && (forall r | r in c.rounds :: Closed(r))
            && NoFinalAnswer(c.current)
  {
    if msgs != [] {
      var front, m := msgs[..|msgs| - 1], msgs[|msgs| - 1];
      CutAtFinalAnswers(front);
      var c := CutRounds(front);
      assert msgs == front + [m];
      if IsFinalAnswer(m) {
        ConcatSnoc(c.rounds, c.current + [m]);
        assert (c.current + [m])[..|c.current|] == c.current;
      }
    }
  }

  lemma {:induction false} ClosedRoundsKept(rounds: seq<seq<ImportMessage>>)
    requires forall r | r in rounds :: Closed(r)
    ensures FilterRounds(rounds) == rounds
  {
    if rounds != [] {
      var front, last := rounds[..|rounds| - 1], rounds[|rounds| - 1];
      ClosedRoundsKept(front);
      assert last in rounds && last[|last| - 1] in last;
      assert rounds == front + [last];
    }
  }

  /** The part of the session the skill path submits: all of it, but for a last round with nothing of the agent's. */
  function SubmittedLength(msgs: seq<ImportMessage>): nat {
    var c := CutRounds(msgs);
    if WorthSubmitting(c.current) then |msgs| else |Concat(c.rounds)|
  }

  lemma RoundsCoverPrefix(msgs: seq<ImportMessage>)
    ensures SubmittedLength(msgs) <= |msgs|
    ensures Concat(Rounds(msgs)) == msgs[..SubmittedLength(msgs)]
    ensures forall m | m in msgs[SubmittedLength(msgs)..] :: !IsAgentSide(m)
    ensures forall r :: 0 <= r < |Rounds(msgs)| - 1 ==> Closed(Rounds(msgs)[r])
    ensures Rounds(msgs) != [] ==> var last := Rounds(msgs)[|Rounds(msgs)| - 1]; Closed(last) || NoFinalAnswer(last)
  {
    var c := CutRounds(msgs);
    CutAtFinalAnswers(msgs);
    RoundsAre(msgs);
    if WorthSubmitting(c.current) {
      ConcatSnoc(c.rounds, c.current);
      assert msgs[..|msgs|] == msgs;
    } else {
      assert msgs[|Concat(c.rounds)|..] == c.current;
    }
  }

  /** The last round starts here: directly after the last assistant's message without tool use, or at the start. */
  ghost predicate LastRoundStarts(msgs: seq<ImportMessage>, i: nat) {
    && i <= |msgs|
    && (i > 0 ==> msgs[i - 1].role == Assistant && !msgs[i - 1].hasToolUse)
    && forall k :: i <= k < |msgs| ==> msgs[k].role != Assistant || msgs[k].hasToolUse
  }

  lemma {:induction false} CurrentStarts(msgs: seq<ImportMessage>, i: nat)
    requires LastRoundStarts(msgs, i)
    ensures CutRounds(msgs).current == msgs[i..]
    ensures |Concat(CutRounds(msgs).rounds)| == i
    decreases |msgs|
  {
    CutAtFinalAnswers(msgs);
    if i < |msgs| {
      var n := |msgs| - 1;
      assert LastRoundStarts(msgs[..n], i);
      CurrentStarts(msgs[..n], i);
      assert msgs[..n][i..] + [msgs[n]] == msgs[i..];
    }
  }

  /** Exactly a last round of neither assistant's nor tool's messages is withheld; everything else is submitted. */
  lemma WithheldIff(msgs: seq<ImportMessage>, i: nat)
    requires LastRoundStarts(msgs, i)
    ensures SubmittedLength(msgs)
         == if exists k :: i <= k < |msgs| && msgs[k].role in {Assistant, ToolCall, ToolResult} then |msgs| else i
  {
    CurrentStarts(msgs, i);
    var current := CutRounds(msgs).current;
    if exists k :: i <= k < |msgs| && msgs[k].role in {Assistant, ToolCall, ToolResult} {
      var k :| i <= k < |msgs| && msgs[k].role in {Assistant, ToolCall, ToolResult};
      assert current[k - i] == msgs[k] && current[k - i] in current;
    }
    if WorthSubmitting(current) {
      var k :| 0 <= k < |current| && IsAgentSide(current[k]);
      assert msgs[i + k] == current[k];
    }
  }

  /** The rounds kept: all closed ones, and the open one when it is worth submitting. */
  lemma RoundsAre(msgs: seq<ImportMessage>)
    ensures var c := CutRounds(msgs);
            Rounds(msgs) == if WorthSubmitting(c.current) then c.rounds + [c.current] else c.rounds
  {
    var c := CutRounds(msgs);
    CutAtFinalAnswers(msgs);
    ClosedRoundsKept(c.rounds);
    assert (c.rounds + [c.current])[..|c.rounds|] == c.rounds;
  }

  // ---- The skill path ----

  /** The bodies posted for a list of rounds when every post succeeds. */
  function PostsFor(rounds: seq<seq<ImportMessage>>): seq<seq<ImportMessage>> {
    if rounds == [] then [] else PostsFor(rounds[..|rounds| - 1]) + Batches(rounds[|rounds| - 1])
  }

  function Posts(msgs: seq<ImportMessage>): seq<seq<ImportMessage>> {
    PostsFor(Rounds(msgs))
  }

  /** The first n posts of a plan were sent; all of them were accepted, but for the last one when ok is false. */
  ghost predicate SentPrefix(plan: seq<seq<ImportMessage>>, sent: seq<seq<ImportMessage>>, respond: nat -> int, ok: bool)
  {
    && sent <= plan
    && (forall i :: 0 <= i < |sent| - (if ok then 0 else 1) ==> respond(i) == 0)
    && (!ok ==> sent != [] && respond(|sent| - 1) != 0)
  }

  method PostBatches(batches: seq<seq<ImportMessage>>, respond: nat -> int, already: seq<seq<ImportMessage>>)
    returns (sent: seq<seq<ImportMessage>>, ok: bool)
    requires SentPrefix(already, already, respond, true)
    ensures SentPrefix(already + batches, sent, respond, ok)
    ensures ok ==> sent == already + batches
  {
    sent := already;
    for b := 0 to |batches|
      invariant sent == already + batches[..b]
      invariant forall i :: 0 <= i < |sent| ==> respond(i) == 0
    {
      sent := sent + [batches[b]];
      assert sent == already + batches[..b + 1];
      if respond(|sent| - 1) != 0 {
        return sent, false;
      }
    }
    assert batches[..|batches|] == batches;
    ok := true;
  }

  /**
   * Posts until the server refuses: `respond(i)` is the envelope code of the i-th post. What was sent is a prefix
   * of the plan, complete unless its last post was the first to be refused.
   */
  method UploadViaConversationAdd(msgs: seq<ImportMessage>, respond: nat -> int)
    returns (sent: seq<seq<ImportMessage>>, ok: bool)
    ensures SentPrefix(Posts(msgs), sent, respond, ok)
    ensures ok ==> sent == Posts(msgs)
  {
    sent := [];
    var rounds := SplitIntoRounds(msgs);
    for r := 0 to |rounds|
      invariant sent == PostsFor(rounds[..r])
      invariant forall i :: 0 <= i < |sent| ==> respond(i) == 0
    {
      PostsSnoc(rounds, r);
      PostsGrow(rounds, r + 1);
      var subBatches := BatchMessages(rounds[r]);
      sent, ok := PostBatches(subBatches, respond, sent);
      if !ok {
        return;
      }
    }
    assert rounds[..|rounds|] == rounds;
    ok := true;
  }

  lemma PostsSnoc(rounds: seq<seq<ImportMessage>>, r: nat)
    requires r < |rounds|
    ensures PostsFor(rounds[..r + 1]) == PostsFor(rounds[..r]) + Batches(rounds[r])
  {
    assert rounds[..r + 1][..r] == rounds[..r];
  }

  lemma {:induction false} PostsGrow(rounds: seq<seq<ImportMessage>>, r: nat)
    requires r <= |rounds|
    ensures PostsFor(rounds[..r]) <= PostsFor(rounds)
  {
    if r < |rounds| {
      PostsGrow(rounds[..|rounds| - 1], r);
      assert rounds[..|rounds| - 1][..r] == rounds[..r];
    } else {
      assert rounds[..r] == rounds;
    }
  }

  lemma {:induction false} PostsCarryPieces(rounds: seq<seq<ImportMessage>>)
    ensures Concat(PostsFor(rounds)) == Pieces(Concat(rounds))
  {
    if rounds != [] {
      var front, last := rounds[..|rounds| - 1], rounds[|rounds| - 1];
      PostsCarryPieces(front);
      ConcatAppend(PostsFor(front), Batches(last));
      ChunkedFits(Pieces(last));
      assert rounds == front + [last];
      ConcatSnoc(front, last);
      PiecesAppend(Concat(front), last);
    }
  }

  /** The post lies within the pieces of one of the rounds. */
  ghost predicate WithinOneRound(post: seq<ImportMessage>, rounds: seq<seq<ImportMessage>>) {
    exists r | r in rounds :: post in Batches(r)
  }

  lemma {:induction false} PostsStayInRounds(rounds: seq<seq<ImportMessage>>)
    ensures forall p | p in PostsFor(rounds) ::
              && WithinOneRound(p, rounds)
              && 1 <= |p| <= MAX_MESSAGES_PER_REQUEST
              && (forall m | m in p :: 1 <= |m.content| <= MAX_MESSAGE_CHARS)
  {
    if rounds != [] {
      var front, last := rounds[..|rounds| - 1], rounds[|rounds| - 1];
      PostsStayInRounds(front);
      assert forall r | r in front :: r in rounds;
      assert last in rounds;
      ChunkedFits(Pieces(last));
      PiecesFit(last);
      forall p, m | p in Batches(last) && m in p
        ensures 1 <= |m.content| <= MAX_MESSAGE_CHARS
      {
        InConcat(Batches(last), p, m);
      }
    }
  }

  lemma {:induction false} InConcat<T>(parts: seq<seq<T>>, p: seq<T>, x: T)
    requires p in parts && x in p
    ensures x in Concat(parts)
  {
    if p != parts[0] {
      InConcat(parts[1..], p, x);
    }
  }

  /**
   * The skill path delivers exactly the pieces of the valid messages of a prefix of the session, in order, in posts
   * of 1 to 100 messages that fit, none of which mixes two rounds; what it withholds has nothing of the agent's.
   */
  lemma SkillPathDelivers(msgs: seq<ImportMessage>)
    ensures var n := SubmittedLength(msgs);
            && n <= |msgs|
            && Concat(Posts(msgs)) == Pieces(msgs[..n])
            && (forall m | m in msgs[n..] :: !IsAgentSide(m))
    ensures forall p | p in Posts(msgs) ::
              && WithinOneRound(p, Rounds(msgs))
              && 1 <= |p| <= 100
              && (forall m | m in p :: 1 <= |m.content| <= 8192)
  {
    RoundsCoverPrefix(msgs);
    PostsCarryPieces(Rounds(msgs));
    PostsStayInRounds(Rounds(msgs));
  }

  // ---- Calls and their results ----

  /** A message of this role and pairing anchor is among these. */
  ghost predicate Holds(msgs: seq<ImportMessage>, role: Role, id: Text) {
    exists m :: m in msgs && m.role == role && m.toolCallId == id
  }

  /** One that says something. */
  ghost predicate Says(msgs: seq<ImportMessage>, role: Role, id: Text) {
    exists m :: m in msgs && m.role == role && m.toolCallId == id && !IsBlank(m.content)
  }

  lemma {:induction false} PiecesInclude(msgs: seq<ImportMessage>, m: ImportMessage)
    requires m in msgs && IsValid(m)
    ensures exists p :: p in Pieces(msgs) && IsPieceOf(p, m)
  {
    var front, last := msgs[..|msgs| - 1], msgs[|msgs| - 1];
    if m == last {
      SplitFits(m.content);
      PiecesCarryMessage(m);
      assert PiecesOf(m)[0] in PiecesOf(m);
      assert PiecesOf(m)[0] in Pieces(msgs);
    } else {
      assert m in front;
      PiecesInclude(front, m);
      var p :| p in Pieces(front) && IsPieceOf(p, m);
      assert p in Pieces(msgs);
    }
  }

  lemma AgentSideSubmitted(msgs: seq<ImportMessage>, m: ImportMessage)
    requires m in msgs && IsAgentSide(m)
    ensures SubmittedLength(msgs) <= |msgs| && m in msgs[..SubmittedLength(msgs)]
  {
    RoundsCoverPrefix(msgs);
    var n := SubmittedLength(msgs);
    var i :| 0 <= i < |msgs| && msgs[i] == m;
    if i < n {
      assert msgs[..n][i] == m;
    }
  }

  /** A call or result reaches the server exactly when the session has one with this anchor that is not blank. */
  lemma PostedIffSaid(msgs: seq<ImportMessage>, role: Role, id: Text)
    requires role == ToolCall || role == ToolResult
    ensures Holds(Concat(Posts(msgs)), role, id) <==> Says(msgs, role, id)
  {
    SkillPathDelivers(msgs);
    var sent := msgs[..SubmittedLength(msgs)];
    if Holds(Concat(Posts(msgs)), role, id) {
      var p :| p in Pieces(sent) && p.role == role && p.toolCallId == id;
      PieceOrigin(sent, p);
      var m :| m in sent && IsValid(m) && IsPieceOf(p, m);
      assert m in msgs;
    }
    if Says(msgs, role, id) {
      var m :| m in msgs && m.role == role && m.toolCallId == id && !IsBlank(m.content);
      AgentSideSubmitted(msgs, m);
      PiecesInclude(sent, m);
      var p :| p in Pieces(sent) && IsPieceOf(p, m);
    }
  }

  /** Every result posted has a call posted under its anchor. */
  ghost predicate PostsPaired(msgs: seq<ImportMessage>) {
    forall p | p in Concat(Posts(msgs)) && p.role == ToolResult :: Holds(Concat(Posts(msgs)), ToolCall, p.toolCallId)
  }

  /** Every result that says something has a call that says something under its anchor. */
  ghost predicate SessionPaired(msgs: seq<ImportMessage>) {
    forall r | r in msgs && r.role == ToolResult && !IsBlank(r.content) :: Says(msgs, ToolCall, r.toolCallId)
  }

  /** Pairing survives the skill path exactly when no result that says something depends on a blank call. */
  lemma PairingSurvivesIff(msgs: seq<ImportMessage>)
    ensures PostsPaired(msgs) <==> SessionPaired(msgs)
  {
    var posted := Concat(Posts(msgs));
    if SessionPaired(msgs) {
      forall p | p in posted && p.role == ToolResult
        ensures Holds(posted, ToolCall, p.toolCallId)
      {
        PostedIffSaid(msgs, ToolResult, p.toolCallId);
        PostedIffSaid(msgs, ToolCall, p.toolCallId);
      }
    }
    if PostsPaired(msgs) {
      forall r | r in msgs && r.role == ToolResult && !IsBlank(r.content)
        ensures Says(msgs, ToolCall, r.toolCallId)
      {
        PostedIffSaid(msgs, ToolResult, r.toolCallId);
        PostedIffSaid(msgs, ToolCall, r.toolCallId);
      }
    }
  }

  // ---- Which round a message falls in ----

  function FinalAnswersBefore(msgs: seq<ImportMessage>, i: nat): nat
    requires i <= |msgs|
  {
    if i == 0 then 0 else FinalAnswersBefore(msgs, i - 1) + if IsFinalAnswer(msgs[i - 1]) then 1 else 0
  }

  lemma {:induction false} FinalAnswersOfPrefix(msgs: seq<ImportMessage>, n: nat, i: nat)
    requires i <= n <= |msgs|
    ensures FinalAnswersBefore(msgs[..n], i) == FinalAnswersBefore(msgs, i)
  {
    if i > 0 {
      FinalAnswersOfPrefix(msgs, n, i - 1);
    }
  }

  lemma {:induction false} ClosedRoundCount(msgs: seq<ImportMessage>)
    ensures |CutRounds(msgs).rounds| == FinalAnswersBefore(msgs, |msgs|)
  {
    if msgs != [] {
      ClosedRoundCount(msgs[..|msgs| - 1]);
      FinalAnswersOfPrefix(msgs, |msgs| - 1, |msgs| - 1);
    }
  }

  ghost predicate InRound(rounds: seq<seq<ImportMessage>>, r: nat, i: nat, m: ImportMessage) {
    && r < |rounds|
    && |Concat(rounds[..r])| <= i < |Concat(rounds[..r])| + |rounds[r]|
    && rounds[r][i - |Concat(rounds[..r])|] == m
  }

  lemma RoundsOnlyGrow(msgs: seq<ImportMessage>, r: nat, i: nat, m: ImportMessage)
    requires msgs != [] && InRound(AllRounds(msgs[..|msgs| - 1]), r, i, m)
    ensures InRound(AllRounds(msgs), r, i, m)
  {
    var before, after := AllRounds(msgs[..|msgs| - 1]), AllRounds(msgs);
    assert after[..r] == before[..r];
    assert before[r] <= after[r];
  }

  /** Message i is in the round numbered by the final answers before it. */
  lemma {:induction false} RoundOfMessage(msgs: seq<ImportMessage>, i: nat)
    requires i < |msgs|
    ensures InRound(AllRounds(msgs), FinalAnswersBefore(msgs, i), i, msgs[i])
  {
    var n := |msgs| - 1;
    var front := msgs[..n];
    FinalAnswersOfPrefix(msgs, n, i);
    if i < n {
      RoundOfMessage(front, i);
      RoundsOnlyGrow(msgs, FinalAnswersBefore(front, i), i, msgs[i]);
    } else {
      ClosedRoundCount(front);
      LastMessageRound(msgs);
    }
  }

  /** The last message stands at the end of the round that was open. */
  lemma LastMessageRound(msgs: seq<ImportMessage>)
    requires msgs != []
    ensures var n := |msgs| - 1;
            InRound(AllRounds(msgs), |CutRounds(msgs[..n]).rounds|, n, msgs[n])
  {
    var n := |msgs| - 1;
    var c := CutRounds(msgs[..n]);
    CutAtFinalAnswers(msgs[..n]);
    assert AllRounds(msgs) == c.rounds + [c.current + [msgs[n]]];
    assert AllRounds(msgs)[..|c.rounds|] == c.rounds;
  }

  lemma {:induction false} FinalAnswersBetween(msgs: seq<ImportMessage>, i: nat, j: nat)
    requires i <= j <= |msgs|
    ensures FinalAnswersBefore(msgs, i) <= FinalAnswersBefore(msgs, j)
    ensures FinalAnswersBefore(msgs, i) == FinalAnswersBefore(msgs, j)
       <==> forall k :: i <= k < j ==> !IsFinalAnswer(msgs[k])
    decreases j
  {
    if i < j {
      FinalAnswersBetween(msgs, i, j - 1);
    }
  }

  ghost predicate InOneRound(msgs: seq<ImportMessage>, i: nat, j: nat)
    requires i <= j < |msgs|
  {
    && FinalAnswersBefore(msgs, i) == FinalAnswersBefore(msgs, j)
    && InRound(AllRounds(msgs), FinalAnswersBefore(msgs, i), i, msgs[i])
    && InRound(AllRounds(msgs), FinalAnswersBefore(msgs, i), j, msgs[j])
  }

  lemma NoAnswerBetween(msgs: seq<ImportMessage>, i: nat, j: nat)
    requires i <= j < |msgs| && forall k :: i <= k < j ==> !IsFinalAnswer(msgs[k])
    ensures InOneRound(msgs, i, j)
  {
    FinalAnswersBetween(msgs, i, j);
    RoundOfMessage(msgs, i);
    RoundOfMessage(msgs, j);
  }
}
