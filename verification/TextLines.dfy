/** text.split("\n") and lines.join("\n"). */
module TextLines {
  import opened JsText

  function Lines(s: Text): (r: seq<Text>)
    ensures |r| >= 1
  {
    if s == [] then [[]]
    else
      var r := Lines(s[1..]);
      if s[0] == NEWLINE then [[]] + r else [[s[0]] + r[0]] + r[1..]
  }

  /** lines.join("\n") */
  function JoinLines(lines: seq<Text>): Text
    requires |lines| >= 1
  {
    if |lines| == 1 then lines[0] else lines[0] + [NEWLINE] + JoinLines(lines[1..])
  }

  predicate NoNewlines(lines: seq<Text>) {
    forall l | l in lines :: NEWLINE !in l
  }

  lemma {:induction false} LinesJoin(s: Text)
    ensures JoinLines(Lines(s)) == s
    ensures NoNewlines(Lines(s))
  {
    if s != [] {
      LinesJoin(s[1..]);
      var r := Lines(s[1..]);
      assert Lines(s)[1..] == if s[0] == NEWLINE then r else r[1..];
      assert s == [s[0]] + s[1..];
    }
  }

  lemma {:induction false} LinesOne(l: Text)
    requires NEWLINE !in l
    ensures Lines(l) == [l]
  {
    if l != [] {
      LinesOne(l[1..]);
      assert l[0] in l && l == [l[0]] + l[1..];
    }
  }

  lemma {:induction false} LinesCons(l: Text, t: Text)
    requires NEWLINE !in l
    ensures Lines(l + [NEWLINE] + t) == [l] + Lines(t)
    decreases |l|
  {
    var s := l + [NEWLINE] + t;
    if l == [] {
      assert s[1..] == t;
    } else {
      assert s[1..] == l[1..] + [NEWLINE] + t;
      LinesCons(l[1..], t);
      assert s[0] == l[0] && l[0] in l && l == [l[0]] + l[1..];
    }
  }

  lemma {:induction false} JoinThenLines(lines: seq<Text>)
    requires |lines| >= 1 && NoNewlines(lines)
    ensures Lines(JoinLines(lines)) == lines
  {
    if |lines| == 1 {
      LinesOne(lines[0]);
    } else {
      JoinThenLines(lines[1..]);
      LinesCons(lines[0], JoinLines(lines[1..]));
    }
  }
}
