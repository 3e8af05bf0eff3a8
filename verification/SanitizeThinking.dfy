/**
 * Taking unsigned thinking blocks out of a request before it goes upstream
 * (MemoryProxy/src/anthropicHandler.ts:268-317).
 */
module SanitizeThinking {
  import opened JsText
  import opened JsValue
  import opened Subsequences

  // ---- Signatures ----

  predicate IsDigit(u: CodeUnit) { 48 <= u <= 57 }

  predicate IsLetter(u: CodeUnit) { 65 <= u <= 90 || 97 <= u <= 122 }

  predicate IsHex(u: CodeUnit) { IsDigit(u) || 65 <= u <= 70 || 97 <= u <= 102 }

  predicate IsBase64(u: CodeUnit) { IsDigit(u) || IsLetter(u) || u in {43, 47, 61} }

  /** Five groups of 8, 4, 4, 4 and 12 hexadecimal digits, joined by hyphens. */
  predicate IsUuid(s: Text) {
    |s| == 36 && forall i :: 0 <= i < 36 ==> if i in {8, 13, 18, 23} then s[i] == 45 else IsHex(s[i])
  }

  predicate HasValidSignature(block: Json) {
    var sig := Get(block, "signature");
    if sig.None? || !sig.value.Str? || |sig.value.s| < 40 then false
    else if IsUuid(sig.value.s) then false
    else forall u | u in sig.value.s :: IsBase64(u)
  }

  /** A digit, a letter of either case, a plus, a slash or an equals sign. */
  predicate OfBase64(u: CodeUnit) {
    u < 128 && var c := u as char;
               '0' <= c <= '9' || 'A' <= c <= 'Z' || 'a' <= c <= 'z' || c == '+' || c == '/' || c == '='
  }

  lemma Base64Iff(u: CodeUnit)
    ensures IsBase64(u) <==> OfBase64(u)
  {
  }

  /** The block carries a signature of at least 40 such units. */
  ghost predicate Signed(block: Json) {
    exists s :: Get(block, "signature") == Some(Str(s)) && |s| >= 40 && forall u | u in s :: OfBase64(u)
  }

  /** The exclusion of UUIDs decides nothing: a UUID is too short for a signature in the first place. */
  lemma SignatureIsLongBase64(block: Json)
    ensures HasValidSignature(block) <==> Signed(block)
  {
    forall u
      ensures IsBase64(u) <==> OfBase64(u)
    {
      Base64Iff(u);
    }
    if HasValidSignature(block) {
      assert Get(block, "signature") == Some(Str(Get(block, "signature").value.s));
    }
  }

  /** A block of thinking, plain or redacted, without a signature. */
  ghost predicate ThinksUnsigned(block: Json) {
    Get(block, "type") in {Some(Str(Lit("thinking"))), Some(Str(Lit("redacted_thinking")))} && !Signed(block)
  }

  lemma UnsignedIff(block: Json)
    ensures IsUnsigned(block) <==> ThinksUnsigned(block)
  {
    SignatureIsLongBase64(block);
  }

  // ---- Blocks, messages, the body ----

  predicate IsThinking(block: Json) {
    IsText(Get(block, "type"), "thinking") || IsText(Get(block, "type"), "redacted_thinking")
  }

  predicate IsUnsigned(block: Json) {
    IsThinking(block) && !HasValidSignature(block)
  }

  /** The blocks that stay; reading the type of a null block throws. */
  function KeptBlocks(blocks: seq<Json>): Option<seq<Json>> {
    if blocks == [] then Some([])
    else
      var front, last := KeptBlocks(blocks[..|blocks| - 1]), blocks[|blocks| - 1];
      if front.None? || last.Null? then None
      else if IsUnsigned(last) then front
      else Some(front.value + [last])
  }

  predicate IsAssistantTurn(msg: Json) {
    var content := Get(msg, "content");
    IsText(Get(msg, "role"), "assistant") && content.Some? && content.value.Arr?
  }

  function BlocksOf(msg: Json): seq<Json> {
    if IsAssistantTurn(msg) then Get(msg, "content").value.items else []
  }

  datatype Cleaned<T> = Cleaned(value: T, removed: nat)

  function CleanMessage(msg: Json): Option<Cleaned<Json>> {
    if msg.Null? then None
    else if !IsAssistantTurn(msg) then Some(Cleaned(msg, 0))
    else
      var blocks := BlocksOf(msg);
      var kept := KeptBlocks(blocks);
      if kept.None? then None
      else
        KeptNoLonger(blocks);
        if |kept.value| == |blocks| then Some(Cleaned(msg, 0))
        else Some(Cleaned(Obj(msg.fields["content" := Arr(kept.value)]), |blocks| - |kept.value|))
  }

  function CleanMessages(msgs: seq<Json>): Option<Cleaned<seq<Json>>> {
    if msgs == [] then Some(Cleaned([], 0))
    else
      var front, last := CleanMessages(msgs[..|msgs| - 1]), CleanMessage(msgs[|msgs| - 1]);
      if front.None? || last.None? then None
      else Some(Cleaned(front.value.value + [last.value.value], front.value.removed + last.value.removed))
  }

  /** None when a null block or message makes it throw; a body without a list of messages is returned as it is. */
  function SanitizeThinkingBlocks(body: map<string, Json>): Option<Cleaned<map<string, Json>>> {
    if "messages" !in body || !body["messages"].Arr? then Some(Cleaned(body, 0))
    else
      var cleaned := CleanMessages(body["messages"].items);
      if cleaned.None? then None
      else if cleaned.value.removed == 0 then Some(Cleaned(body, 0))
      else Some(Cleaned(body["messages" := Arr(cleaned.value.value)], cleaned.value.removed))
  }

  // ---- What it promises ----

  lemma {:induction false} KeptNoLonger(blocks: seq<Json>)
    ensures KeptBlocks(blocks).Some? ==> |KeptBlocks(blocks).value| <= |blocks|
    ensures KeptBlocks(blocks).Some? && |KeptBlocks(blocks).value| == |blocks| ==> KeptBlocks(blocks).value == blocks
  {
    if blocks != [] {
      KeptNoLonger(blocks[..|blocks| - 1]);
      assert blocks == blocks[..|blocks| - 1] + [blocks[|blocks| - 1]];
    }
  }

  /** What is left of a turn's blocks: those that are no unsigned thinking, all of them, in order. */
  ghost predicate Sifted(before: seq<Json>, after: seq<Json>) {
    && Subseq(after, before)
    && forall b :: multiset(after)[b] == if ThinksUnsigned(b) then 0 else multiset(before)[b]
  }

  lemma {:induction false} KeptAreSifted(blocks: seq<Json>)
    requires KeptBlocks(blocks).Some?
    ensures Sifted(blocks, KeptBlocks(blocks).value)
  {
    if blocks != [] {
      var front, last := blocks[..|blocks| - 1], blocks[|blocks| - 1];
      KeptAreSifted(front);
      SiftedSnoc(front, KeptBlocks(front).value, last);
      assert blocks == front + [last];
    }
  }

  lemma SiftedSnoc(before: seq<Json>, after: seq<Json>, b: Json)
    requires Sifted(before, after)
    ensures Sifted(before + [b], if IsUnsigned(b) then after else after + [b])
  {
    UnsignedIff(b);
    if IsUnsigned(b) {
      SubseqSkip(after, before, b);
    } else {
      SubseqPush(after, before, b);
    }
  }

  lemma SubseqSkip(after: seq<Json>, before: seq<Json>, b: Json)
    requires Subseq(after, before)
    ensures Subseq(after, before + [b])
  {
    assert (before + [b])[..|before|] == before;
  }

  /**
   * One message of the body: another role's is untouched; an assistant's keeps its other fields and loses exactly its
   * unsigned thinking blocks.
   */
  ghost predicate MessageSifted(before: Json, after: Json) {
    if exists blocks :: AssistantSays(before, blocks) then
      exists blocks, kept ::
        && AssistantSays(before, blocks) && AssistantSays(after, kept)
        && before.Obj? && after.Obj? && after.fields - {"content"} == before.fields - {"content"}
        && Sifted(blocks, kept)
    else after == before
  }

  /** A message in the assistant's role with a list of blocks. */
  ghost predicate AssistantSays(msg: Json, blocks: seq<Json>) {
    Get(msg, "role") == Some(Str(Lit("assistant"))) && Get(msg, "content") == Some(Arr(blocks))
  }

  lemma TurnIff(msg: Json, blocks: seq<Json>)
    ensures AssistantSays(msg, blocks) <==> IsAssistantTurn(msg) && BlocksOf(msg) == blocks
  {
  }

  lemma TurnSifted(before: Json, after: Json)
    requires IsAssistantTurn(before) && IsAssistantTurn(after)
    requires after.fields - {"content"} == before.fields - {"content"} && Sifted(BlocksOf(before), BlocksOf(after))
    ensures MessageSifted(before, after)
  {
    TurnIff(before, BlocksOf(before));
    TurnIff(after, BlocksOf(after));
  }

  ghost predicate AllSigned(blocks: seq<Json>) {
    forall b | b in blocks :: !b.Null? && !IsUnsigned(b)
  }

  ghost predicate NoneUnsigned(blocks: seq<Json>) {
    forall b | b in blocks :: !ThinksUnsigned(b)
  }

  lemma {:induction false} KeptAreSigned(blocks: seq<Json>)
    requires KeptBlocks(blocks).Some?
    ensures AllSigned(KeptBlocks(blocks).value)
    ensures forall b | b in blocks && !IsUnsigned(b) :: b in KeptBlocks(blocks).value
  {
    if blocks != [] {
      KeptAreSigned(blocks[..|blocks| - 1]);
      assert blocks == blocks[..|blocks| - 1] + [blocks[|blocks| - 1]];
    }
  }

  lemma {:induction false} SignedAreKept(blocks: seq<Json>)
    requires AllSigned(blocks)
    ensures KeptBlocks(blocks) == Some(blocks)
  {
    if blocks != [] {
      var front := blocks[..|blocks| - 1];
      assert blocks == front + [blocks[|blocks| - 1]];
      assert forall b | b in front :: b in blocks;
      SignedAreKept(front);
    }
  }

  /** A cleaned message differs from the original at most in its content, and there only in unsigned thinking. */
  lemma MessageCleaned(msg: Json)
    requires CleanMessage(msg).Some?
    ensures var c := CleanMessage(msg).value;
            && !c.value.Null?
            && MessageSifted(msg, c.value)
            && AllSigned(BlocksOf(c.value))
            && |BlocksOf(msg)| == |BlocksOf(c.value)| + c.removed
            && CleanMessage(c.value) == Some(Cleaned(c.value, 0))
  {
    if IsAssistantTurn(msg) {
      var blocks := BlocksOf(msg);
      var kept := KeptBlocks(blocks).value;
      KeptNoLonger(blocks);
      KeptAreSifted(blocks);
      KeptAreSigned(blocks);
      SignedAreKept(kept);
      if |kept| != |blocks| {
        ContentReplaced(msg, kept);
      }
      TurnSifted(msg, CleanMessage(msg).value.value);
    } else {
      forall blocks
        ensures !AssistantSays(msg, blocks)
      {
        TurnIff(msg, blocks);
      }
    }
  }

  lemma ContentReplaced(msg: Json, kept: seq<Json>)
    requires IsAssistantTurn(msg)
    ensures var e := Obj(msg.fields["content" := Arr(kept)]);
            IsAssistantTurn(e) && BlocksOf(e) == kept && e.fields - {"content"} == msg.fields - {"content"}
  {
    var e := Obj(msg.fields["content" := Arr(kept)]);
    assert "role" != "content";
    assert Get(e, "role") == Get(msg, "role");
    assert e.fields - {"content"} == msg.fields - {"content"};
  }

  function BlockCount(msgs: seq<Json>): nat {
    if msgs == [] then 0 else BlockCount(msgs[..|msgs| - 1]) + |BlocksOf(msgs[|msgs| - 1])|
  }

  /** The cleaned messages are the originals cleaned one by one. */
  ghost predicate CleanedEach(msgs: seq<Json>, cleaned: seq<Json>) {
    && |cleaned| == |msgs|
    && forall i :: 0 <= i < |msgs| ==> CleanMessage(msgs[i]).Some? && cleaned[i] == CleanMessage(msgs[i]).value.value
  }

  lemma CleanSnoc(front: seq<Json>, last: Json)
    ensures CleanMessages(front + [last])
         == if CleanMessages(front).None? || CleanMessage(last).None? then None
            else Some(Cleaned(CleanMessages(front).value.value + [CleanMessage(last).value.value],
                              CleanMessages(front).value.removed + CleanMessage(last).value.removed))
  {
    assert (front + [last])[..|front|] == front && (front + [last])[|front|] == last;
  }

  lemma CountSnoc(front: seq<Json>, last: Json)
    ensures BlockCount(front + [last]) == BlockCount(front) + |BlocksOf(last)|
  {
    assert (front + [last])[..|front|] == front;
  }

  lemma {:induction false} MessagesCleaned(msgs: seq<Json>)
    requires CleanMessages(msgs).Some?
    ensures var c := CleanMessages(msgs).value;
            && CleanedEach(msgs, c.value)
            && BlockCount(msgs) == BlockCount(c.value) + c.removed
            && CleanMessages(c.value) == Some(Cleaned(c.value, 0))
            && (c.removed == 0 ==> c.value == msgs)
  {
    if msgs != [] {
      var front, last := msgs[..|msgs| - 1], msgs[|msgs| - 1];
      assert msgs == front + [last];
      CleanSnoc(front, last);
      MessagesCleaned(front);
      MessageCleaned(last);
      CleanSnoc(CleanMessages(front).value.value, CleanMessage(last).value.value);
      CountSnoc(CleanMessages(front).value.value, CleanMessage(last).value.value);
      UnremovedMessage(last);
    }
  }

  lemma UnremovedMessage(msg: Json)
    ensures CleanMessage(msg).Some? && CleanMessage(msg).value.removed == 0 ==> CleanMessage(msg).value.value == msg
  {
    KeptNoLonger(BlocksOf(msg));
  }

  // ---- When it throws ----

  lemma {:induction false} KeptThrowsIff(blocks: seq<Json>)
    ensures KeptBlocks(blocks).None? <==> Null in blocks
  {
    if blocks != [] {
      KeptThrowsIff(blocks[..|blocks| - 1]);
      assert blocks == blocks[..|blocks| - 1] + [blocks[|blocks| - 1]];
    }
  }

  /** A message that is null, or an assistant's with a null among its blocks. */
  ghost predicate Unreadable(msg: Json) {
    msg == Null || exists blocks :: AssistantSays(msg, blocks) && Null in blocks
  }

  lemma CleanThrowsIff(msg: Json)
    ensures CleanMessage(msg).None? <==> Unreadable(msg)
  {
    KeptThrowsIff(BlocksOf(msg));
    TurnIff(msg, BlocksOf(msg));
  }

  lemma {:induction false} MessagesThrowIff(msgs: seq<Json>)
    ensures CleanMessages(msgs).None? <==> exists msg :: msg in msgs && Unreadable(msg)
  {
    if msgs != [] {
      var front, last := msgs[..|msgs| - 1], msgs[|msgs| - 1];
      assert msgs == front + [last];
      MessagesThrowIff(front);
      CleanThrowsIff(last);
      assert last in msgs;
    }
  }

  /** Sanitizing throws exactly when a message is null or an assistant's message has a null block. */
  lemma SanitizeThrowsIff(body: map<string, Json>)
    ensures SanitizeThinkingBlocks(body).None?
       <==> "messages" in body && body["messages"].Arr?
            && exists msg :: msg in body["messages"].items && Unreadable(msg)
    ensures !("messages" in body && body["messages"].Arr?) ==> SanitizeThinkingBlocks(body) == Some(Cleaned(body, 0))
  {
    if "messages" in body && body["messages"].Arr? {
      MessagesThrowIff(body["messages"].items);
    }
  }

  /** Every message of the body, in its place, sifted. */
  ghost predicate MessagesSifted(before: seq<Json>, after: seq<Json>) {
    |after| == |before| && forall i :: 0 <= i < |before| ==> MessageSifted(before[i], after[i])
  }

  lemma CleanedIsSifted(msgs: seq<Json>, cleaned: seq<Json>)
    requires CleanedEach(msgs, cleaned)
    ensures MessagesSifted(msgs, cleaned)
    ensures forall m, blocks | m in cleaned && AssistantSays(m, blocks) :: NoneUnsigned(blocks)
  {
    forall i | 0 <= i < |msgs|
      ensures MessageSifted(msgs[i], cleaned[i])
    {
      MessageCleaned(msgs[i]);
    }
    forall m, blocks | m in cleaned && AssistantSays(m, blocks)
      ensures NoneUnsigned(blocks)
    {
      var i :| 0 <= i < |cleaned| && cleaned[i] == m;
      MessageCleaned(msgs[i]);
      TurnIff(m, blocks);
      SignedNotUnsigned(blocks);
    }
  }

  lemma SignedNotUnsigned(blocks: seq<Json>)
    requires AllSigned(blocks)
    ensures NoneUnsigned(blocks)
  {
    forall b | b in blocks
      ensures !ThinksUnsigned(b)
    {
      UnsignedIff(b);
    }
  }

  /**
   * The body keeps its other fields and every message its place; other roles' messages are untouched, and an
   * assistant's loses exactly its unsigned thinking blocks. The number reported is the number of blocks gone, and
   * sanitizing again, as the retry does, changes nothing.
   */
  lemma SanitizedBody(body: map<string, Json>)
    requires SanitizeThinkingBlocks(body).Some? && "messages" in body && body["messages"].Arr?
    ensures var c := SanitizeThinkingBlocks(body).value;
            && "messages" in c.value && c.value["messages"].Arr?
            && c.value - {"messages"} == body - {"messages"}
            && MessagesSifted(body["messages"].items, c.value["messages"].items)
            && BlockCount(body["messages"].items) == BlockCount(c.value["messages"].items) + c.removed
            && (c.removed == 0 ==> c.value == body)
            && SanitizeThinkingBlocks(c.value) == Some(Cleaned(c.value, 0))
    ensures forall m, blocks |
              m in SanitizeThinkingBlocks(body).value.value["messages"].items && AssistantSays(m, blocks) ::
              NoneUnsigned(blocks)
  {
    var msgs := body["messages"].items;
    MessagesCleaned(msgs);
    var c := SanitizeThinkingBlocks(body).value;
    var items := CleanMessages(msgs).value.value;
    assert c.value["messages"].items == items;
    assert c.value - {"messages"} == body - {"messages"};
    CleanedIsSifted(msgs, items);
  }
}
