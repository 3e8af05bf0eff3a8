/** JavaScript strings: finite sequences of UTF-16 code units. */
module JsText {
  type CodeUnit = x: int | 0 <= x < 0x1_0000
  type Text = seq<CodeUnit>

  const NEWLINE: CodeUnit := 10

  /** The code units of a literal written in the basic multilingual plane. */
  function Lit(s: string): (r: Text)
    ensures |r| == |s|
    ensures forall i :: 0 <= i < |s| && s[i] as int < 0x1_0000 ==> r[i] == s[i] as int
  {
    seq(|s|, i requires 0 <= i < |s| => if s[i] as int < 0x1_0000 then s[i] as int else 0xFFFD)
  }

  /** WhiteSpace and LineTerminator code points, the ones String.prototype.trim removes. */
  predicate IsWhitespace(u: CodeUnit) {
    || 9 <= u <= 13
    || u in {0x20, 0xA0, 0x1680, 0x2028, 0x2029, 0x202F, 0x205F, 0x3000, 0xFEFF}
    || 0x2000 <= u <= 0x200A
  }

  /** s.trim() === "" */
  predicate IsBlank(s: Text) {
    forall u | u in s :: IsWhitespace(u)
  }

  predicate StartsWith(s: Text, prefix: Text) {
    prefix <= s
  }

  function TrimStart(s: Text): Text {
    if s != [] && IsWhitespace(s[0]) then TrimStart(s[1..]) else s
  }

  function TrimEnd(s: Text): Text {
    if s != [] && IsWhitespace(s[|s| - 1]) then TrimEnd(s[..|s| - 1]) else s
  }

  function Trim(s: Text): Text {
    TrimEnd(TrimStart(s))
  }

  lemma {:induction false} TrimStartPast(a: Text, s: Text)
    requires IsBlank(a) && s != [] && !IsWhitespace(s[0])
    ensures TrimStart(a + s) == s
    decreases |a|
  {
    if a == [] {
      assert a + s == s;
    } else {
      assert (a + s)[1..] == a[1..] + s && (a + s)[0] == a[0] && a[0] in a;
      TrimStartPast(a[1..], s);
    }
  }

  lemma {:induction false} TrimEndPast(s: Text, a: Text)
    requires IsBlank(a) && s != [] && !IsWhitespace(s[|s| - 1])
    ensures TrimEnd(s + a) == s
    decreases |a|
  {
    var n := |a| - 1;
    if a == [] {
      assert s + a == s;
    } else {
      assert (s + a)[..|s + a| - 1] == s + a[..n] && (s + a)[|s + a| - 1] == a[n] && a[n] in a;
      TrimEndPast(s, a[..n]);
    }
  }

  /** Trimming takes away the whitespace before and after, and nothing else. */
  lemma TrimBoth(a: Text, s: Text, b: Text)
    requires IsBlank(a) && IsBlank(b) && s != [] && !IsWhitespace(s[0]) && !IsWhitespace(s[|s| - 1])
    ensures Trim(a + s + b) == s
  {
    assert a + s + b == a + (s + b);
    TrimStartPast(a, s + b);
    TrimEndPast(s, b);
  }

  lemma {:induction false} TrimBlank(s: Text)
    requires IsBlank(s)
    ensures TrimStart(s) == [] && Trim(s) == []
  {
    if s != [] {
      TrimBlank(s[1..]);
    }
  }

  function Concat<T>(parts: seq<seq<T>>): seq<T> {
    if parts == [] then [] else parts[0] + Concat(parts[1..])
  }

  lemma {:induction false} ConcatAppend<T>(a: seq<seq<T>>, b: seq<seq<T>>)
    ensures Concat(a + b) == Concat(a) + Concat(b)
  {
    if a == [] {
      assert a + b == b;
    } else {
      assert (a + b)[1..] == a[1..] + b;
      ConcatAppend(a[1..], b);
    }
  }

  lemma ConcatSnoc<T>(a: seq<seq<T>>, x: seq<T>)
    ensures Concat(a + [x]) == Concat(a) + x
  {
    ConcatAppend(a, [x]);
    assert Concat([x]) == x + Concat<T>([]);
  }

  /** parts.join(separator) */
  function Join(parts: seq<Text>, separator: Text): Text {
    if |parts| == 0 then []
    else if |parts| == 1 then parts[0]
    else parts[0] + separator + Join(parts[1..], separator)
  }

  /** parts.filter(Boolean) */
  function NonEmpty(parts: seq<Text>): seq<Text> {
    if parts == [] then []
    else if parts[0] == [] then NonEmpty(parts[1..])
    else [parts[0]] + NonEmpty(parts[1..])
  }
}
