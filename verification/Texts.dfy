/** Byte strings, as in Go: trimming, joining, and cutting apart what was joined. */
module Texts {

  type Byte = c: char | c as int < 256 witness 'a'
  type Text = seq<Byte>

  // ----------------------------------------------------------------- trimming

  /** The ASCII spaces of strings.TrimSpace. */
  predicate IsSpace(c: Byte) {
    c == ' ' || 9 <= c as int <= 13
  }

  function TrimLeft(s: Text): Text {
    if s != [] && IsSpace(s[0]) then TrimLeft(s[1..]) else s
  }

  function TrimRight(s: Text): Text {
    if s != [] && IsSpace(s[|s| - 1]) then TrimRight(s[..|s| - 1]) else s
  }

  function TrimSpace(s: Text): Text {
    TrimRight(TrimLeft(s))
  }

  lemma TrimKeeps(s: Text)
    requires s != [] ==> !IsSpace(s[0]) && !IsSpace(s[|s| - 1])
    ensures TrimSpace(s) == s
  {
  }

  lemma {:induction false} TrimmedLeft(s: Text)
    ensures TrimLeft(s) != [] ==> !IsSpace(TrimLeft(s)[0])
  {
    if s != [] && IsSpace(s[0]) {
      TrimmedLeft(s[1..]);
    }
  }

  lemma {:induction false} TrimmedRight(s: Text)
    ensures TrimRight(s) <= s
    ensures TrimRight(s) != [] ==> !IsSpace(TrimRight(s)[|TrimRight(s)| - 1])
  {
    if s != [] && IsSpace(s[|s| - 1]) {
      TrimmedRight(s[..|s| - 1]);
    }
  }

  lemma TrimmedEnds(s: Text)
    ensures var t := TrimSpace(s); t != [] ==> !IsSpace(t[0]) && !IsSpace(t[|t| - 1])
  {
    TrimmedLeft(s);
    TrimmedRight(TrimLeft(s));
  }

  /** Trimming twice is trimming once. */
  lemma TrimTwice(s: Text)
    ensures TrimSpace(TrimSpace(s)) == TrimSpace(s)
  {
    TrimmedEnds(s);
    TrimKeeps(TrimSpace(s));
  }

  // ------------------------------------------------------- joining and cutting

  predicate Without(s: Text, c: Byte) {
    forall i :: 0 <= i < |s| ==> s[i] != c
  }

  function Join(parts: seq<Text>, sep: Byte): Text {
    if parts == [] then [] else if |parts| == 1 then parts[0] else parts[0] + [sep] + Join(parts[1..], sep)
  }

  predicate HasSuffix(s: string, suffix: Text) {
    |suffix| <= |s| && s[|s| - |suffix|..] == suffix
  }

  ghost predicate AllWithout(parts: seq<Text>, sep: Byte) {
    forall i :: 0 <= i < |parts| ==> Without(parts[i], sep)
  }

  /** Text before the first separator is determined. */
  lemma FirstCut(p: Text, q: Text, x: Text, y: Text, sep: Byte)
    requires Without(p, sep) && Without(q, sep)
    requires p + [sep] + x <= q + [sep] + y
    ensures p == q && x <= y
  {
    var l, r := p + [sep] + x, q + [sep] + y;
    assert l[|p|] == r[|p|] == sep == r[|q|];
    assert |q| < |l| ==> l[|q|] == sep;
    assert forall i :: 0 <= i < |p| ==> l[i] == p[i];
    assert forall i :: 0 <= i < |q| ==> r[i] == q[i];
    assert p == l[..|p|] && q == r[..|q|];
    assert x == l[|p| + 1..] && y == r[|q| + 1..];
  }

  /** Text after the last separator is determined. */
  lemma LastCut(x: Text, y: Text, p: Text, q: Text, sep: Byte)
    requires Without(p, sep) && Without(q, sep)
    requires x + [sep] + p == y + [sep] + q
    ensures p == q
  {
    var l, r := x + [sep] + p, y + [sep] + q;
    assert l[|x|] == sep == r[|y|];
    assert forall i :: |x| < i < |l| ==> l[i] == p[i - |x| - 1];
    assert forall i :: |y| < i < |r| ==> r[i] == q[i - |y| - 1];
    assert p == l[|x| + 1..] && q == r[|y| + 1..];
  }

  lemma {:induction false} JoinLast(parts: seq<Text>, last: Text, sep: Byte)
    requires parts != []
    ensures Join(parts + [last], sep) == Join(parts, sep) + [sep] + last
  {
    var all := parts + [last];
    if |parts| == 1 {
      assert all[1..] == [last];
    } else {
      assert all[1..] == parts[1..] + [last];
      JoinLast(parts[1..], last, sep);
      assert Join(all, sep) == parts[0] + [sep] + (Join(parts[1..], sep) + [sep] + last);
    }
  }

  lemma {:induction false} JoinInjective(a: seq<Text>, b: seq<Text>, sep: Byte)
    requires |a| == |b| && AllWithout(a, sep) && AllWithout(b, sep) && Join(a, sep) == Join(b, sep)
    ensures a == b
  {
    if |a| > 1 {
      FirstCut(a[0], b[0], Join(a[1..], sep), Join(b[1..], sep), sep);
      FirstCut(b[0], a[0], Join(b[1..], sep), Join(a[1..], sep), sep);
      JoinInjective(a[1..], b[1..], sep);
      assert a == [a[0]] + a[1..] && b == [b[0]] + b[1..];
    } else if |a| == 1 {
      assert a == [a[0]] && b == [b[0]];
    }
  }
}
