/**
 * Cutting text to a number of UTF-8 bytes (MemoryKnowledge/src/clickhouse-telemetry.ts:72-76): encode, cut, decode
 * with replacement characters, and take one trailing replacement character off.
 */
module Utf8Truncate {
  import opened JsValue

  /** Unicode scalar values: every code point but the surrogates. */
  type Scalar = v: int | 0 <= v < 0xD800 || 0xE000 <= v <= 0x10FFFF
  type Byte = b: int | 0 <= b < 256

  const REPLACEMENT: Scalar := 0xFFFD

  /** Section 3 of RFC 3629. */
  function EncodeChar(v: Scalar): (r: seq<Byte>)
    ensures 1 <= |r| <= 4
  {
    if v < 0x80 then [v]
    else if v < 0x800 then [0xC0 + v / 64, 0x80 + v % 64]
    else if v < 0x1_0000 then [0xE0 + v / 4096, 0x80 + v / 64 % 64, 0x80 + v % 64]
    else [0xF0 + v / 262144, 0x80 + v / 4096 % 64, 0x80 + v / 64 % 64, 0x80 + v % 64]
  }

  function Encode(text: seq<Scalar>): seq<Byte> {
    if text == [] then [] else EncodeChar(text[0]) + Encode(text[1..])
  }

  /** What the decoder still expects: continuation bytes, the next one between lo and hi, onto the bits so far. */
  datatype Pending = Pending(need: nat, lo: int, hi: int, bits: int)

  const NOTHING: Pending := Pending(0, 0x80, 0xBF, 0)

  /** A lead byte; None when no character starts with it. */
  function Lead(b: Byte): Option<Pending> {
    if 0xC2 <= b <= 0xDF then Some(Pending(1, 0x80, 0xBF, b - 0xC0))
    else if 0xE0 <= b <= 0xEF then
      Some(Pending(2, if b == 0xE0 then 0xA0 else 0x80, if b == 0xED then 0x9F else 0xBF, b - 0xE0))
    else if 0xF0 <= b <= 0xF4 then
      Some(Pending(3, if b == 0xF0 then 0x90 else 0x80, if b == 0xF4 then 0x8F else 0xBF, b - 0xF0))
    else None
  }

  /** The decoder with replacement: a byte that does not fit ends the broken character and is looked at again. */
  function Decode(bytes: seq<Byte>, p: Pending): seq<int>
    decreases |bytes|, p.need
  {
    if bytes == [] then if p.need == 0 then [] else [REPLACEMENT]
    else
      var b, rest := bytes[0], bytes[1..];
      if p.need == 0 then
        if b < 0x80 then [b] + Decode(rest, NOTHING)
        else if Lead(b).None? then [REPLACEMENT] + Decode(rest, NOTHING)
        else Decode(rest, Lead(b).value)
      else if !(p.lo <= b <= p.hi) then [REPLACEMENT] + Decode(bytes, NOTHING)
      else
        var bits := p.bits * 64 + (b - 0x80);
        if p.need == 1 then [bits] + Decode(rest, NOTHING)
        else Decode(rest, Pending(p.need - 1, 0x80, 0xBF, bits))
  }

  function WithoutTrailingReplacement(text: seq<int>): seq<int> {
    if text != [] && text[|text| - 1] == REPLACEMENT then text[..|text| - 1] else text
  }

  function TruncateUtf8(value: seq<Scalar>, maxBytes: nat): seq<int> {
    var bytes := Encode(value);
    if |bytes| <= maxBytes then value
    else WithoutTrailingReplacement(Decode(bytes[..maxBytes], NOTHING))
  }

  // ---- Decoding what encoding wrote ----

  /** The decoder's state after one more byte that fits. */
  function Taken(p: Pending, b: Byte): Pending
    requires p.need > 0
  {
    Pending(p.need - 1, 0x80, 0xBF, p.bits * 64 + (b - 0x80))
  }

  /** The bytes continue the character one after the other. */
  predicate Continues(p: Pending, bytes: seq<Byte>)
    decreases |bytes|
  {
    bytes == [] || (p.need > 0 && p.lo <= bytes[0] <= p.hi && Continues(Taken(p, bytes[0]), bytes[1..]))
  }

  function After(p: Pending, bytes: seq<Byte>): Pending
    requires Continues(p, bytes)
    decreases |bytes|
  {
    if bytes == [] then p else After(Taken(p, bytes[0]), bytes[1..])
  }

  /** Bytes that continue the character but do not complete it emit nothing; the byte that completes it emits it. */
  lemma {:induction false} DecodeContinuation(p: Pending, bytes: seq<Byte>, rest: seq<Byte>)
    requires bytes != [] && Continues(p, bytes)
    ensures After(p, bytes).need > 0 ==> Decode(bytes + rest, p) == Decode(rest, After(p, bytes))
    ensures After(p, bytes).need == 0 ==> Decode(bytes + rest, p) == [After(p, bytes).bits] + Decode(rest, NOTHING)
    decreases |bytes|
  {
    assert (bytes + rest)[1..] == bytes[1..] + rest;
    if |bytes| > 1 {
      DecodeContinuation(Taken(p, bytes[0]), bytes[1..], rest);
    } else {
      assert bytes[1..] + rest == rest;
    }
  }

  lemma Bits2(v: Scalar)
    requires 0x80 <= v < 0x800
    ensures v / 64 * 64 + v % 64 == v && 2 <= v / 64 < 32
  {
  }

  lemma Bits3(v: Scalar)
    requires 0x800 <= v < 0x1_0000
    ensures (v / 4096 * 64 + v / 64 % 64) * 64 + v % 64 == v && v / 4096 < 16
    ensures v / 4096 == 0 ==> v / 64 % 64 >= 0x20
    ensures v / 4096 == 13 ==> v / 64 % 64 < 0x20
  {
  }

  lemma Bits4(v: Scalar)
    requires 0x1_0000 <= v
    ensures ((v / 262144 * 64 + v / 4096 % 64) * 64 + v / 64 % 64) * 64 + v % 64 == v && v / 262144 <= 4
    ensures v / 262144 == 0 ==> v / 4096 % 64 >= 0x10
    ensures v / 262144 == 4 ==> v / 4096 % 64 < 0x10
  {
    assert v / 262144 == v / 4096 / 64 && v / 4096 == v / 64 / 64;
  }

  /** A multi-byte character starts with a lead byte whose continuation is exactly the character. */
  lemma EncodedContinues(v: Scalar)
    requires 0x80 <= v
    ensures var e := EncodeChar(v);
            && |e| > 1 && e[0] >= 0x80 && Lead(e[0]).Some? && Lead(e[0]).value.need == |e| - 1
            && Continues(Lead(e[0]).value, e[1..])
            && After(Lead(e[0]).value, e[1..]) == Pending(0, 0x80, 0xBF, v)
  {
    var e := EncodeChar(v);
    if v < 0x800 {
      Bits2(v);
      assert e[1..][1..] == [];
    } else if v < 0x1_0000 {
      Bits3(v);
      assert e[1..][1..] == e[2..] && e[2..][1..] == [];
      var q := Taken(Lead(e[0]).value, e[1]);
      assert Continues(q, e[2..]);
      assert After(q, e[2..]) == Taken(q, e[2]);
    } else {
      Bits4(v);
      assert e[1..][1..] == e[2..] && e[2..][1..] == e[3..] && e[3..][1..] == [];
      var q := Taken(Lead(e[0]).value, e[1]);
      var r := Taken(q, e[2]);
      assert Continues(r, e[3..]);
      assert Continues(q, e[2..]);
      assert After(q, e[2..]) == After(r, e[3..]) == Taken(r, e[3]);
    }
  }

  /** A whole character decodes to itself. */
  lemma DecodeWhole(v: Scalar, rest: seq<Byte>)
    ensures Decode(EncodeChar(v) + rest, NOTHING) == [v] + Decode(rest, NOTHING)
  {
    var e := EncodeChar(v);
    assert (e + rest)[1..] == e[1..] + rest;
    if v < 0x80 {
      assert e[1..] + rest == rest;
    } else {
      EncodedContinues(v);
      DecodeContinuation(Lead(e[0]).value, e[1..], rest);
    }
  }

  lemma {:induction false} ContinuesPrefix(p: Pending, bytes: seq<Byte>, k: nat)
    requires Continues(p, bytes) && k <= |bytes|
    ensures Continues(p, bytes[..k]) && After(p, bytes[..k]).need == p.need - k
    decreases k
  {
    if k > 0 {
      assert bytes[..k][1..] == bytes[1..][..k - 1];
      ContinuesPrefix(Taken(p, bytes[0]), bytes[1..], k - 1);
    }
  }

  /** A character cut anywhere inside decodes to a single replacement character. */
  lemma DecodePartial(v: Scalar, k: nat)
    requires 0 < k < |EncodeChar(v)|
    ensures Decode(EncodeChar(v)[..k], NOTHING) == [REPLACEMENT]
  {
    var e := EncodeChar(v);
    EncodedContinues(v);
    var p, part := Lead(e[0]).value, e[1..][..k - 1];
    assert e[..k][1..] == part;
    ContinuesPrefix(p, e[1..], k - 1);
    if part != [] {
      DecodeContinuation(p, part, []);
      assert part + [] == part;
    }
  }

  /** How a cut at byte k falls: after n whole characters and `into` bytes of the next one. */
  datatype Cut = Cut(n: nat, into: nat)

  function CutAt(text: seq<Scalar>, k: nat): Cut {
    if text == [] || k == 0 then Cut(0, 0)
    else if k < |EncodeChar(text[0])| then Cut(0, k)
    else var c := CutAt(text[1..], k - |EncodeChar(text[0])|); Cut(c.n + 1, c.into)
  }

  /** The bytes before a cut are whole characters and a proper part of the next one. */
  lemma {:induction false} CutSplits(text: seq<Scalar>, k: nat)
    requires k <= |Encode(text)|
    ensures var c := CutAt(text, k);
            && c.n <= |text|
            && (c.into > 0 ==> c.n < |text| && c.into < |EncodeChar(text[c.n])|)
            && Encode(text)[..k] == Encode(text[..c.n]) + if c.into > 0 then EncodeChar(text[c.n])[..c.into] else []
  {
    var c := CutAt(text, k);
    if text == [] || k == 0 {
      assert text[..0] == [];
    } else if k < |EncodeChar(text[0])| {
      assert text[..0] == [];
    } else {
      var e, rest := EncodeChar(text[0]), Encode(text[1..]);
      CutSplits(text[1..], k - |e|);
      TakeInto(e, rest, k);
      EncodeTake(text, c.n);
      Regroup(e, Encode(text[1..][..c.n - 1]), if c.into > 0 then EncodeChar(text[c.n])[..c.into] else []);
    }
  }

  lemma TakeInto(a: seq<Byte>, b: seq<Byte>, k: nat)
    requires |a| <= k <= |a| + |b|
    ensures (a + b)[..k] == a + b[..k - |a|]
  {
  }

  lemma EncodeTake(text: seq<Scalar>, n: nat)
    requires 0 < n <= |text|
    ensures Encode(text[..n]) == EncodeChar(text[0]) + Encode(text[1..][..n - 1])
  {
    assert text[..n][1..] == text[1..][..n - 1];
  }

  lemma {:induction false} DecodeText(text: seq<Scalar>, rest: seq<Byte>)
    ensures Decode(Encode(text) + rest, NOTHING) == text + Decode(rest, NOTHING)
  {
    if text == [] {
      assert Encode(text) + rest == rest;
    } else {
      DecodeText(text[1..], rest);
      DecodeWhole(text[0], Encode(text[1..]) + rest);
      Regroup(EncodeChar(text[0]), Encode(text[1..]), rest);
      Regroup([text[0]], text[1..], Decode(rest, NOTHING));
      assert text == [text[0]] + text[1..];
    }
  }

  lemma Regroup<T>(a: seq<T>, b: seq<T>, c: seq<T>)
    ensures (a + b) + c == a + (b + c)
  {
  }

  lemma DecodeCut(text: seq<Scalar>, k: nat)
    requires k <= |Encode(text)|
    ensures var c := CutAt(text, k);
            && c.n <= |text|
            && |Encode(text[..c.n])| + c.into == k
            && c.into <= 3
            && Decode(Encode(text)[..k], NOTHING) == text[..c.n] + if c.into > 0 then [REPLACEMENT] else []
  {
    var c := CutAt(text, k);
    CutSplits(text, k);
    DecodeText(text[..c.n], if c.into > 0 then EncodeChar(text[c.n])[..c.into] else []);
    if c.into > 0 {
      DecodePartial(text[c.n], c.into);
    }
  }

  lemma {:induction false} EncodePrefix(text: seq<Scalar>, n: nat)
    requires 0 < n <= |text|
    ensures Encode(text[..n]) == Encode(text[..n - 1]) + EncodeChar(text[n - 1])
  {
    if n == 1 {
      assert text[..1][1..] == [] && text[..0] == [];
    } else {
      EncodePrefix(text[1..], n - 1);
      assert text[..n][1..] == text[1..][..n - 1];
      assert text[..n - 1][1..] == text[1..][..n - 2];
    }
  }

  /**
   * The result is a prefix of the text that fits. Text that fits is kept whole; otherwise at most three bytes of the
   * room are given up, wherever the cut falls, also when the text itself has a replacement character there.
   */
  lemma TruncateFits(value: seq<Scalar>, maxBytes: nat)
    ensures var r := TruncateUtf8(value, maxBytes);
            && |r| <= |value| && r == value[..|r|]
            && |Encode(value[..|r|])| <= maxBytes
            && (|Encode(value)| <= maxBytes ==> r == value)
            && (|Encode(value)| > maxBytes ==> |Encode(value[..|r|])| >= maxBytes - 3)
  {
    if |Encode(value)| <= maxBytes {
      assert value[..|value|] == value;
    } else {
      var c := CutAt(value, maxBytes);
      DecodeCut(value, maxBytes);
      var d := Decode(Encode(value)[..maxBytes], NOTHING);
      if c.into > 0 {
        assert WithoutTrailingReplacement(d) == value[..c.n];
      } else if c.n > 0 && value[c.n - 1] == REPLACEMENT {
        EncodePrefix(value, c.n);
        assert d[..c.n - 1] == value[..c.n - 1];
      } else {
        assert d == value[..c.n];
      }
    }
  }
}
