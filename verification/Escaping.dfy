/**
 SQL string and LIKE-pattern escaping: EscapeSQL and EscapeLIKE of
 internal/commons/commons.go, and escapeLIKE of internal/pile/profile.go, read back
 by the String Literals rules of the MySQL manual and matched by its LIKE rules.
 */
module Escaping {

  /** strings.ReplaceAll for a one-character pattern. */
  function ReplaceAll(s: string, c: char, with: string): string {
    if s == "" then "" else (if s[0] == c then with else [s[0]]) + ReplaceAll(s[1..], c, with)
  }

  function EscapeSQL(s: string): string {
    ReplaceAll(ReplaceAll(s, '\\', "\\\\"), '\'', "''")
  }

  function EscapeLIKE(s: string): string {
    ReplaceAll(ReplaceAll(EscapeSQL(s), '%', "\\%"), '_', "\\_")
  }

  /** The profile search's escapeLIKE; EscapeSQL is applied to its result. */
  function EscapeLikeOnly(s: string): string {
    ReplaceAll(ReplaceAll(ReplaceAll(s, '\\', "\\\\"), '%', "\\%"), '_', "\\_")
  }

  // ------------------------------------------------------ what the server reads

  datatype Literal = Unterminated | Literal(value: string, rest: string)

  function Prepend(front: string, l: Literal): Literal {
    match l
    case Unterminated => Unterminated
    case Literal(value, rest) => Literal(front + value, rest)
  }

  /** The meaning of a backslash followed by `c`. */
  function Unescaped(c: char): string {
    match c
    case '0' => ['\0']
    case 'b' => ['\U{0008}']
    case 'n' => "\n"
    case 'r' => "\r"
    case 't' => "\t"
    case 'Z' => ['\U{001A}']
    case '%' => "\\%"
    case '_' => "\\_"
    case _ => [c]
  }

  /** Reads a single-quoted literal, starting just after its opening quote. */
  function ReadLiteral(s: string): Literal {
    if s == "" then Unterminated
    else if s[0] == '\'' then
      if |s| > 1 && s[1] == '\'' then Prepend("'", ReadLiteral(s[2..])) else Literal("", s[1..])
    else if s[0] == '\\' then
      if |s| == 1 then Unterminated else Prepend(Unescaped(s[1]), ReadLiteral(s[2..]))
    else Prepend([s[0]], ReadLiteral(s[1..]))
  }

  /** x LIKE p with escape character backslash, case-sensitive. */
  predicate Like(x: string, p: string)
    decreases |p| + |x|
  {
    if p == "" then x == ""
    else if p[0] == '%' then Like(x, p[1..]) || (x != "" && Like(x[1..], p))
    else if p[0] == '_' then x != "" && Like(x[1..], p[1..])
    else if p[0] == '\\' && |p| > 1 then x != "" && x[0] == p[1] && Like(x[1..], p[2..])
    else x != "" && x[0] == p[0] && Like(x[1..], p[1..])
  }

  ghost predicate Contains(x: string, q: string) {
    exists i :: 0 <= i <= |x| && q <= x[i..]
  }

  // --------------------------------------------------------- literals round trip

  lemma ReplaceCons(x: char, s: string, c: char, with: string)
    ensures ReplaceAll([x] + s, c, with) == (if x == c then with else [x]) + ReplaceAll(s, c, with)
  {
    assert ([x] + s)[1..] == s;
  }

  lemma ConsConcat(a: string, b: string)
    requires a != ""
    ensures a + b == [a[0]] + (a[1..] + b)
  {
  }

  lemma ConcatIsAssociative(a: string, b: string, c: string)
    ensures a + (b + c) == (a + b) + c
  {
  }

  lemma {:induction false} ReplaceConcat(a: string, b: string, c: char, with: string)
    ensures ReplaceAll(a + b, c, with) == ReplaceAll(a, c, with) + ReplaceAll(b, c, with)
  {
    if a == "" {
      assert a + b == b;
    } else {
      ReplaceConcat(a[1..], b, c, with);
      ConsConcat(a, b);
      ReplaceCons(a[0], a[1..] + b, c, with);
      ConcatIsAssociative(if a[0] == c then with else [a[0]], ReplaceAll(a[1..], c, with), ReplaceAll(b, c, with));
    }
  }

  function SqlChar(c: char): string {
    if c == '\\' then "\\\\" else if c == '\'' then "''" else [c]
  }

  lemma EscapeSQLCons(c: char, s: string)
    ensures EscapeSQL([c] + s) == SqlChar(c) + EscapeSQL(s)
  {
    ReplaceCons(c, s, '\\', "\\\\");
    var doubled := if c == '\\' then "\\\\" else [c];
    ReplaceConcat(doubled, ReplaceAll(s, '\\', "\\\\"), '\'', "''");
    ReplaceCons(c, "", '\'', "''");
    ReplaceCons('\\', "\\", '\'', "''");
    ReplaceCons('\\', "", '\'', "''");
    assert [c] + "" == [c];
    assert "\\" + "\\" == "\\\\";
  }

  /** Reading one escaped character gives it back and leaves the rest. */
  lemma ReadSqlChar(c: char, t: string)
    ensures ReadLiteral(SqlChar(c) + t) == Prepend([c], ReadLiteral(t))
  {
    var s := SqlChar(c) + t;
    if c == '\\' || c == '\'' {
      assert s[2..] == t;
    } else {
      assert s[1..] == t;
    }
  }

  lemma PrependTwice(a: string, b: string, l: Literal)
    ensures Prepend(a, Prepend(b, l)) == Prepend(a + b, l)
  {
    if l.Literal? {
      assert a + (b + l.value) == (a + b) + l.value;
    }
  }

  lemma {:induction false} ReadEscaped(s: string, t: string)
    ensures ReadLiteral(EscapeSQL(s) + t) == Prepend(s, ReadLiteral(t))
  {
    if s == "" {
      assert EscapeSQL(s) + t == t;
      if ReadLiteral(t).Literal? {
        assert "" + ReadLiteral(t).value == ReadLiteral(t).value;
      }
    } else {
      assert s == [s[0]] + s[1..];
      EscapeSQLCons(s[0], s[1..]);
      assert EscapeSQL(s) + t == SqlChar(s[0]) + (EscapeSQL(s[1..]) + t);
      ReadSqlChar(s[0], EscapeSQL(s[1..]) + t);
      ReadEscaped(s[1..], t);
      PrependTwice([s[0]], s[1..], ReadLiteral(t));
    }
  }

  lemma FinalQuoteEnds(rest: string)
    requires rest == "" || rest[0] != '\''
    ensures ReadLiteral("'" + rest) == Literal("", rest)
  {
    assert ("'" + rest)[1..] == rest;
  }

  /** Every string survives quoting, and the literal ends at its own final quote. */
  lemma LiteralRoundTrip(s: string, rest: string)
    requires rest == "" || rest[0] != '\''
    ensures ReadLiteral(EscapeSQL(s) + "'" + rest) == Literal(s, rest)
  {
    ConcatIsAssociative(EscapeSQL(s), "'", rest);
    ReadEscaped(s, "'" + rest);
    FinalQuoteEnds(rest);
    assert s + "" == s;
  }

  // -------------------------------------------------------- the profile search

  function LikeChar(c: char): string {
    if c == '\\' then "\\\\" else if c == '%' then "\\%" else if c == '_' then "\\_" else [c]
  }

  /** Replacement in strings of one or two characters. */
  lemma ReplaceChars(d: string, c: char, with: string)
    requires 1 <= |d| <= 2
    ensures |d| == 1 ==> ReplaceAll(d, c, with) == if d[0] == c then with else d
    ensures |d| == 2 && d[0] != c && d[1] != c ==> ReplaceAll(d, c, with) == d
  {
    assert d == [d[0]] + d[1..];
    ReplaceCons(d[0], d[1..], c, with);
    if |d| == 2 {
      assert d[1..] == [d[1]] + "";
      ReplaceCons(d[1], "", c, with);
    } else {
      assert with + "" == with;
    }
  }

  lemma EscapeLikeOnlyCons(c: char, s: string)
    ensures EscapeLikeOnly([c] + s) == LikeChar(c) + EscapeLikeOnly(s)
  {
    ReplaceCons(c, s, '\\', "\\\\");
    var d1 := if c == '\\' then "\\\\" else [c];
    var s1 := ReplaceAll(s, '\\', "\\\\");
    ReplaceConcat(d1, s1, '%', "\\%");
    ReplaceChars(d1, '%', "\\%");
    var d2 := if c == '%' then "\\%" else d1;
    var s2 := ReplaceAll(s1, '%', "\\%");
    ReplaceConcat(d2, s2, '_', "\\_");
    ReplaceChars(d2, '_', "\\_");
  }

  lemma LikeCharMatches(x: string, c: char, p: string)
    ensures Like(x, LikeChar(c) + p) <==> x != "" && x[0] == c && Like(x[1..], p)
  {
    var q := LikeChar(c) + p;
    if |LikeChar(c)| == 2 {
      assert q[2..] == p;
    } else {
      assert q[1..] == p;
    }
  }

  lemma {:induction false} PercentMatchesAll(x: string)
    ensures Like(x, "%")
  {
    if x != "" {
      PercentMatchesAll(x[1..]);
    }
  }

  lemma {:induction false} EscapedPrefix(x: string, q: string)
    ensures Like(x, EscapeLikeOnly(q) + "%") <==> q <= x
  {
    if q == "" {
      assert EscapeLikeOnly(q) + "%" == "%";
      PercentMatchesAll(x);
    } else {
      assert q == [q[0]] + q[1..];
      EscapeLikeOnlyCons(q[0], q[1..]);
      assert EscapeLikeOnly(q) + "%" == LikeChar(q[0]) + (EscapeLikeOnly(q[1..]) + "%");
      LikeCharMatches(x, q[0], EscapeLikeOnly(q[1..]) + "%");
      if x != "" {
        EscapedPrefix(x[1..], q[1..]);
        assert q <= x <==> q[0] == x[0] && q[1..] <= x[1..];
      }
    }
  }

  /** A leading percent sign lets the rest of the pattern start anywhere. */
  lemma {:induction false} PercentSkips(x: string, p: string)
    ensures Like(x, "%" + p) <==> exists i :: 0 <= i <= |x| && Like(x[i..], p)
  {
    assert ("%" + p)[1..] == p;
    assert x[0..] == x;
    if x != "" {
      PercentSkips(x[1..], p);
      forall i | 0 <= i <= |x[1..]| && Like(x[1..][i..], p) ensures Like(x[i + 1..], p) {
        assert x[1..][i..] == x[i + 1..];
      }
      forall i | 1 <= i <= |x| && Like(x[i..], p) ensures Like(x[1..][i - 1..], p) {
        assert x[1..][i - 1..] == x[i..];
      }
    }
  }

  lemma SearchPattern(x: string, q: string)
    ensures Like(x, "%" + EscapeLikeOnly(q) + "%") <==> Contains(x, q)
  {
    var p := EscapeLikeOnly(q) + "%";
    assert "%" + EscapeLikeOnly(q) + "%" == "%" + p;
    PercentSkips(x, p);
    forall i | 0 <= i <= |x| ensures Like(x[i..], p) <==> q <= x[i..] {
      EscapedPrefix(x[i..], q);
    }
  }

  /** The pattern literal of a search, up to and including its closing quote. */
  function PatternLiteral(escaped: string): string {
    "%" + escaped + "%'"
  }

  lemma Regroup(a: string, b: string, c: string, d: string)
    ensures a + b + c + d == a + (b + (c + d)) && a + b + c == a + (b + c)
  {
  }

  lemma ReadPercent(u: string)
    ensures ReadLiteral("%" + u) == Prepend("%", ReadLiteral(u))
  {
    assert ("%" + u)[1..] == u;
  }

  lemma ReadTail(rest: string)
    requires rest == "" || rest[0] != '\''
    ensures ReadLiteral("%'" + rest) == Literal("%", rest)
  {
    assert "%'" + rest == "%" + ("'" + rest);
    ReadPercent("'" + rest);
    assert ("'" + rest)[1..] == rest;
  }

  /** Any escaped text that reads back as `pattern` reads so between the percent signs. */
  lemma ReadBetweenPercents(escaped: string, pattern: string, rest: string)
    requires rest == "" || rest[0] != '\''
    requires ReadLiteral(escaped + ("%'" + rest)) == Prepend(pattern, ReadLiteral("%'" + rest))
    ensures ReadLiteral(PatternLiteral(escaped) + rest) == Literal("%" + pattern + "%", rest)
  {
    ReadTail(rest);
    ReadPercent(escaped + ("%'" + rest));
    Regroup("%", escaped, "%'", rest);
    Regroup("%", pattern, "%", "");
    PrependTwice("%", pattern, Literal("%", rest));
  }

  /** A profile search for q matches exactly the strings that contain q. */
  lemma SearchIsExact(q: string, rest: string)
    requires rest == "" || rest[0] != '\''
    ensures var read := ReadLiteral(PatternLiteral(EscapeSQL(EscapeLikeOnly(q))) + rest);
            read.Literal? && read.rest == rest && forall x :: Like(x, read.value) <==> Contains(x, q)
  {
    ReadEscaped(EscapeLikeOnly(q), "%'" + rest);
    ReadBetweenPercents(EscapeSQL(EscapeLikeOnly(q)), EscapeLikeOnly(q), rest);
    forall x ensures Like(x, "%" + EscapeLikeOnly(q) + "%") <==> Contains(x, q) {
      SearchPattern(x, q);
    }
  }

  // ------------------------------------------------- the board's own EscapeLIKE

  function BoardChar(c: char): string {
    if c == '%' then "\\%" else if c == '_' then "\\_" else SqlChar(c)
  }

  lemma EscapeLIKECons(c: char, s: string)
    ensures EscapeLIKE([c] + s) == BoardChar(c) + EscapeLIKE(s)
  {
    EscapeSQLCons(c, s);
    ReplaceConcat(SqlChar(c), EscapeSQL(s), '%', "\\%");
    ReplaceChars(SqlChar(c), '%', "\\%");
    var d := if c == '%' then "\\%" else SqlChar(c);
    ReplaceConcat(d, ReplaceAll(EscapeSQL(s), '%', "\\%"), '_', "\\_");
    ReplaceChars(d, '_', "\\_");
  }

  function PatternChar(c: char): string {
    if c == '%' then "\\%" else if c == '_' then "\\_" else [c]
  }

  /** The pattern that EscapeLIKE's output denotes: backslashes are left to act as escapes. */
  function BoardPattern(q: string): string {
    if q == "" then "" else PatternChar(q[0]) + BoardPattern(q[1..])
  }

  lemma {:induction false} ReadBoardPattern(q: string, t: string)
    ensures ReadLiteral(EscapeLIKE(q) + t) == Prepend(BoardPattern(q), ReadLiteral(t))
  {
    if q == "" {
      assert EscapeLIKE(q) + t == t;
      if ReadLiteral(t).Literal? {
        assert "" + ReadLiteral(t).value == ReadLiteral(t).value;
      }
    } else {
      var c := q[0];
      assert q == [c] + q[1..];
      EscapeLIKECons(c, q[1..]);
      var u := EscapeLIKE(q[1..]) + t;
      assert EscapeLIKE(q) + t == BoardChar(c) + u;
      if c == '%' || c == '_' {
        assert (BoardChar(c) + u)[2..] == u;
      } else {
        ReadSqlChar(c, u);
      }
      ReadBoardPattern(q[1..], t);
      PrependTwice(PatternChar(c), BoardPattern(q[1..]), ReadLiteral(t));
    }
  }

  lemma {:induction false} BoardPatternIsLiteral(q: string)
    requires '\\' !in q
    ensures BoardPattern(q) == EscapeLikeOnly(q)
  {
    if q != "" {
      assert q == [q[0]] + q[1..];
      EscapeLikeOnlyCons(q[0], q[1..]);
      BoardPatternIsLiteral(q[1..]);
    }
  }

  /** What a backslash, the character c and more text can be taken for. */
  function MisreadAfter(c: char, w: string): string {
    if c == '%' then "\\" + w else if c == '_' then "\\" + ("-" + w) else [c] + w
  }

  /** A string that the board pattern of q matches, no longer than q, and other than q
      as soon as q has a backslash. */
  function Misread(q: string): string {
    if q == "" then ""
    else if q[0] != '\\' then [q[0]] + Misread(q[1..])
    else if |q| == 1 then "%"
    else MisreadAfter(q[1], Misread(q[2..]))
  }

  lemma {:induction false} MisreadDiffers(q: string)
    ensures |Misread(q)| <= |q|
    ensures '\\' in q ==> Misread(q) != q
  {
    if q != "" {
      if q[0] != '\\' {
        MisreadDiffers(q[1..]);
        assert Misread(q)[1..] == Misread(q[1..]);
      } else if |q| > 1 {
        MisreadDiffers(q[2..]);
      }
    }
  }

  /** In a pattern, a backslash and the character after it match that character. */
  lemma EscapePairMatches(c: char, w: string, p: string)
    requires Like(w, p)
    ensures Like([c] + w, ['\\', c] + p)
  {
    assert (['\\', c] + p)[2..] == p;
    assert ([c] + w)[1..] == w;
  }

  lemma WildcardsMatch(c: char, w: string, p: string)
    requires Like(w, p)
    ensures Like(w, "%" + p) && Like([c] + w, "_" + p)
  {
    assert ("%" + p)[1..] == p && ("_" + p)[1..] == p;
    assert ([c] + w)[1..] == w;
  }

  lemma PatternPair(c: char, r: string)
    ensures "\\" + (PatternChar(c) + r) + "%" ==
            if c == '%' then ['\\', '\\'] + ("%" + (r + "%"))
            else if c == '_' then ['\\', '\\'] + ("_" + (r + "%"))
            else ['\\', c] + (r + "%")
  {
  }

  lemma MisreadAfterMatches(c: char, w: string, r: string)
    requires Like(w, r + "%")
    ensures Like(MisreadAfter(c, w), "\\" + (PatternChar(c) + r) + "%")
  {
    var p := r + "%";
    PatternPair(c, r);
    WildcardsMatch('-', w, p);
    if c == '%' {
      EscapePairMatches('\\', w, "%" + p);
    } else if c == '_' {
      EscapePairMatches('\\', "-" + w, "_" + p);
    } else {
      EscapePairMatches(c, w, p);
    }
  }

  lemma BoardPatternPair(q: string)
    requires |q| >= 2 && q[0] == '\\'
    ensures BoardPattern(q) == "\\" + (PatternChar(q[1]) + BoardPattern(q[2..]))
  {
    var tail := q[1..];
    assert tail[1..] == q[2..];
    assert BoardPattern(tail) == PatternChar(tail[0]) + BoardPattern(tail[1..]);
  }

  lemma {:induction false} MisreadMatches(q: string)
    ensures Like(Misread(q), BoardPattern(q) + "%")
  {
    if q == "" {
      assert BoardPattern(q) + "%" == "%";
    } else if q[0] != '\\' {
      MisreadMatches(q[1..]);
      var p := BoardPattern(q[1..]) + "%";
      assert BoardPattern(q) + "%" == LikeChar(q[0]) + p;
      LikeCharMatches(Misread(q), q[0], p);
      assert Misread(q)[1..] == Misread(q[1..]);
    } else if |q| == 1 {
      assert BoardPattern(q) + "%" == "\\%";
      assert Misread(q)[1..] == "" && (BoardPattern(q) + "%")[2..] == "";
    } else {
      MisreadMatches(q[2..]);
      BoardPatternPair(q);
      MisreadAfterMatches(q[1], Misread(q[2..]), BoardPattern(q[2..]));
    }
  }

  lemma BackslashMisleads(q: string)
    requires '\\' in q
    ensures Like(Misread(q), "%" + BoardPattern(q) + "%") && !Contains(Misread(q), q)
  {
    var x, p := Misread(q), BoardPattern(q) + "%";
    MisreadMatches(q);
    MisreadDiffers(q);
    assert x[0..] == x;
    PercentSkips(x, p);
    assert "%" + BoardPattern(q) + "%" == "%" + p;
    forall i | 0 <= i <= |x| ensures !(q <= x[i..]) {
      assert |x[i..]| == |x| - i;
      assert q <= x && |q| == |x| ==> q == x;
    }
  }

  /** EscapeLIKE makes a search literal exactly for queries without a backslash. */
  lemma BoardSearchIsExactIffNoBackslash(q: string, rest: string)
    requires rest == "" || rest[0] != '\''
    ensures var read := ReadLiteral(PatternLiteral(EscapeLIKE(q)) + rest);
            && read.Literal? && read.rest == rest
            && ((forall x :: Like(x, read.value) <==> Contains(x, q)) <==> '\\' !in q)
  {
    ReadBoardPattern(q, "%'" + rest);
    ReadBetweenPercents(EscapeLIKE(q), BoardPattern(q), rest);
    var pattern := "%" + BoardPattern(q) + "%";
    if '\\' !in q {
      BoardPatternIsLiteral(q);
      forall x ensures Like(x, pattern) <==> Contains(x, q) {
        SearchPattern(x, q);
      }
    } else {
      BackslashMisleads(q);
      assert !(Like(Misread(q), pattern) <==> Contains(Misread(q), q));
    }
  }
}
