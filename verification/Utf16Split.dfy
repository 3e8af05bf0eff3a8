/** Cutting long content into pieces a message can carry (agents/asset-import.ts:784, 805-826). */
module Utf16Split {
  import opened JsText
  import opened JsValue

  const MAX_MESSAGE_CHARS: nat := 8192

  predicate IsHighSurrogate(code: CodeUnit) {
    0xD800 <= code <= 0xDBFF
  }

  predicate IsLowSurrogate(code: CodeUnit) {
    0xDC00 <= code <= 0xDFFF
  }

  /** Position k falls between the two halves of a surrogate pair. */
  predicate InsidePair(s: Text, k: nat) {
    0 < k < |s| && IsHighSurrogate(s[k - 1]) && IsLowSurrogate(s[k])
  }

  /** Where the piece that starts at `start` ends. */
  function PieceEnd(content: Text, start: nat): (end: nat)
    requires start < |content|
    ensures start < end <= |content| && end - start <= MAX_MESSAGE_CHARS
  {
    var end := if start + MAX_MESSAGE_CHARS < |content| then start + MAX_MESSAGE_CHARS else |content|;
    if InsidePair(content, end) then end - 1 else end
  }

  function SplitFrom(content: Text, start: nat): seq<Text>
    requires start <= |content|
    decreases |content| - start
  {
    if start == |content| then []
    else [content[start..PieceEnd(content, start)]] + SplitFrom(content, PieceEnd(content, start))
  }

  function SplitLong(content: Text): seq<Text> {
    if |content| <= MAX_MESSAGE_CHARS then [content] else SplitFrom(content, 0)
  }

  method SplitLongContent(content: Text) returns (parts: seq<Text>)
    ensures parts == SplitLong(content)
  {
    if |content| <= MAX_MESSAGE_CHARS {
      return [content];
    }
    parts := [];
    var start := 0;
    while start < |content|
      invariant 0 <= start <= |content|
      invariant parts + SplitFrom(content, start) == SplitFrom(content, 0)
      decreases |content| - start
    {
      var end := if start + MAX_MESSAGE_CHARS < |content| then start + MAX_MESSAGE_CHARS else |content|;
      if end < |content| && IsHighSurrogate(content[end - 1]) && IsLowSurrogate(content[end]) {
        end := end - 1;
      }
      assert end == PieceEnd(content, start);
      parts := parts + [content[start..end]];
      start := end;
    }
  }

  lemma {:induction false} SplitFromLossless(content: Text, start: nat)
    requires start <= |content|
    ensures Concat(SplitFrom(content, start)) == content[start..]
    decreases |content| - start
  {
    if start < |content| {
      var end := PieceEnd(content, start);
      SplitFromLossless(content, end);
      assert SplitFrom(content, start)[1..] == SplitFrom(content, end);
      assert content[start..] == content[start..end] + content[end..];
    }
  }

  lemma {:induction false} SplitFromSizes(content: Text, start: nat)
    requires start <= |content|
    ensures var pieces := SplitFrom(content, start);
            && (forall p | p in pieces :: 1 <= |p| <= MAX_MESSAGE_CHARS)
            && |content| - start <= |pieces| * MAX_MESSAGE_CHARS
            && (start < |content| ==> (|pieces| - 1) * (MAX_MESSAGE_CHARS - 1) < |content| - start)
    decreases |content| - start
  {
    if start < |content| {
      SplitFromSizes(content, PieceEnd(content, start));
    }
  }

  /**
   * The pieces concatenate to the content and each fits a message; only empty content gives an empty piece. Their
   * number is that of full messages, but for the units given up to keep surrogate pairs whole.
   */
  lemma SplitFits(content: Text)
    ensures var pieces, n := SplitLong(content), |content|;
            && Concat(pieces) == content
            && (forall p | p in pieces :: |p| <= MAX_MESSAGE_CHARS && (p == [] ==> content == []))
            && (n > 0 ==> (n + 8191) / 8192 <= |pieces| <= (n + 8190) / 8191)
  {
    var n := |content|;
    if n <= MAX_MESSAGE_CHARS {
      assert Concat([content]) == content + Concat<CodeUnit>([]);
    } else {
      SplitFromLossless(content, 0);
      SplitFromSizes(content, 0);
      assert content[0..] == content;
    }
  }

  /** Every piece but the last is full, or one unit short because a full one would end inside a surrogate pair. */
  lemma {:induction false} SplitGreedy(content: Text, start: nat, i: nat)
    requires start <= |content| && i + 1 < |SplitFrom(content, start)|
    ensures var pieces := SplitFrom(content, start);
            var from := start + |Concat(pieces[..i])|;
            && from + |pieces[i]| < |content|
            && |pieces[i]| == if InsidePair(content, from + MAX_MESSAGE_CHARS) then MAX_MESSAGE_CHARS - 1
                              else MAX_MESSAGE_CHARS
    decreases i
  {
    var pieces := SplitFrom(content, start);
    var end := PieceEnd(content, start);
    SplitFromLossless(content, end);
    assert pieces[1..] == SplitFrom(content, end);
    if i == 0 {
      assert pieces[..0] == [];
      assert SplitFrom(content, end) != [];
    } else {
      SplitGreedy(content, end, i - 1);
      assert pieces[..i] == [pieces[0]] + pieces[1..][..i - 1];
      assert pieces[..i][1..] == pieces[1..][..i - 1];
    }
  }

  // ---- Well-formed UTF-16 ----

  /** The first character and the number of units it takes; None when it is an unpaired surrogate. */
  function FirstCharacter(s: Text): (r: Option<(int, nat)>)
    requires s != []
    ensures r.Some? ==> 1 <= r.value.1 <= |s| && r.value.1 == if IsHighSurrogate(s[0]) then 2 else 1
    ensures r.Some? && r.value.1 == 2 ==> IsLowSurrogate(s[1])
  {
    if !IsHighSurrogate(s[0]) && !IsLowSurrogate(s[0]) then Some((s[0], 1))
    else if IsHighSurrogate(s[0]) && |s| > 1 && IsLowSurrogate(s[1]) then
      var high: int, low: int := s[0], s[1];
      Some(((high - 0xD800) * 0x400 + (low - 0xDC00) + 0x1_0000, 2))
    else None
  }

  /** Decoding UTF-16 as section 2.2 of RFC 2781 describes it; None on an unpaired surrogate. */
  function Decode(s: Text): Option<seq<int>> {
    if s == [] then Some([])
    else
      var first := FirstCharacter(s);
      if first.None? then None
      else
        var rest := Decode(s[first.value.1..]);
        if rest.None? then None else Some([first.value.0] + rest.value)
  }

  lemma CutAfterFirst(s: Text, k: nat)
    requires 0 < k <= |s| && FirstCharacter(s).Some? && !InsidePair(s, k)
    ensures var step := FirstCharacter(s).value.1;
            && step <= k
            && !InsidePair(s[step..], k - step)
            && FirstCharacter(s[..k]) == FirstCharacter(s)
            && s[..k][step..] == s[step..][..k - step]
            && s[step..][k - step..] == s[k..]
  {
    var step := FirstCharacter(s).value.1;
    var tail := s[step..];
    assert step <= k;
    assert forall i :: 0 <= i < |tail| ==> tail[i] == s[step + i];
    assert s[..k][step..] == tail[..k - step];
    assert tail[k - step..] == s[k..];
  }

  lemma PrefixAssociates<T>(a: seq<T>, b: seq<T>, c: seq<T>)
    ensures a + (b + c) == (a + b) + c
  {
  }

  /** Cutting well-formed text anywhere but inside a pair cuts the decoded characters in two. */
  lemma {:induction false} DecodeCut(s: Text, k: nat)
    requires k <= |s| && Decode(s).Some? && !InsidePair(s, k)
    ensures Decode(s[..k]).Some? && Decode(s[k..]).Some?
    ensures Decode(s).value == Decode(s[..k]).value + Decode(s[k..]).value
    decreases |s|
  {
    if k == 0 {
      assert s[..0] == [] && s[0..] == s;
    } else {
      var (c, step) := FirstCharacter(s).value;
      var tail, front := s[step..], s[..k];
      CutAfterFirst(s, k);
      DecodeCut(tail, k - step);
      assert Decode(front).value == [c] + Decode(front[step..]).value;
      PrefixAssociates([c], Decode(front[step..]).value, Decode(s[k..]).value);
    }
  }

  function DecodeAll(pieces: seq<Text>): Option<seq<int>> {
    if pieces == [] then Some([])
    else
      var first, rest := Decode(pieces[0]), DecodeAll(pieces[1..]);
      if first.None? || rest.None? then None else Some(first.value + rest.value)
  }

  lemma {:induction false} SplitFromDecodes(content: Text, start: nat)
    requires start <= |content| && Decode(content[start..]).Some?
    ensures DecodeAll(SplitFrom(content, start)) == Decode(content[start..])
    decreases |content| - start
  {
    if start < |content| {
      var end := PieceEnd(content, start);
      var tail := content[start..];
      assert !InsidePair(tail, end - start);
      DecodeCut(tail, end - start);
      assert tail[..end - start] == content[start..end];
      assert tail[end - start..] == content[end..];
      SplitFromDecodes(content, end);
      assert SplitFrom(content, start)[1..] == SplitFrom(content, end);
    }
  }

  lemma {:induction false} AllDecode(pieces: seq<Text>, p: Text)
    requires DecodeAll(pieces).Some? && p in pieces
    ensures Decode(p).Some?
  {
    if p != pieces[0] {
      AllDecode(pieces[1..], p);
    }
  }

  /** Splitting well-formed content gives well-formed pieces that decode, in order, to the same characters. */
  lemma SplitKeepsCharacters(content: Text)
    requires Decode(content).Some?
    ensures DecodeAll(SplitLong(content)) == Decode(content)
    ensures forall p | p in SplitLong(content) :: Decode(p).Some?
  {
    assert content[0..] == content;
    if |content| <= MAX_MESSAGE_CHARS {
      assert DecodeAll([content][1..]) == Some([]);
      assert Decode(content).value + [] == Decode(content).value;
    } else {
      SplitFromDecodes(content, 0);
    }
    forall p | p in SplitLong(content)
      ensures Decode(p).Some?
    {
      AllDecode(SplitLong(content), p);
    }
  }

  // ---- Every text of characters ----

  /** A Unicode scalar value. */
  predicate IsScalar(c: int) {
    0 <= c < 0xD800 || 0xE000 <= c < 0x11_0000
  }

  predicate AllScalars(chars: seq<int>) {
    forall i :: 0 <= i < |chars| ==> IsScalar(chars[i])
  }

  /** Encoding UTF-16 as section 2.1 of RFC 2781 describes it. */
  function EncodeCharacter(c: int): Text
    requires IsScalar(c)
  {
    if c < 0x1_0000 then [c] else [0xD800 + (c - 0x1_0000) / 0x400, 0xDC00 + (c - 0x1_0000) % 0x400]
  }

  function Encode(chars: seq<int>): Text
    requires AllScalars(chars)
  {
    if chars == [] then [] else EncodeCharacter(chars[0]) + Encode(chars[1..])
  }

  lemma FirstOfEncoded(c: int, rest: Text)
    requires IsScalar(c)
    ensures FirstCharacter(EncodeCharacter(c) + rest) == Some((c, |EncodeCharacter(c)|))
    ensures (EncodeCharacter(c) + rest)[|EncodeCharacter(c)|..] == rest
  {
  }

  lemma {:induction false} DecodeEncoded(chars: seq<int>)
    requires AllScalars(chars)
    ensures Decode(Encode(chars)) == Some(chars)
  {
    if chars != [] {
      var rest := chars[1..];
      DecodeEncoded(rest);
      FirstOfEncoded(chars[0], Encode(rest));
      assert chars == [chars[0]] + rest;
    }
  }

  /** Whatever characters a text is made of, its pieces decode to them, in order. */
  lemma SplitKeepsEveryText(chars: seq<int>)
    requires AllScalars(chars)
    ensures DecodeAll(SplitLong(Encode(chars))) == Some(chars)
  {
    DecodeEncoded(chars);
    SplitKeepsCharacters(Encode(chars));
  }
}
