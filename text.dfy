/** The string operations of Python's `str` and `pathlib` that the
    application relies on, stated over `seq<char>`. */
module Text {

  /** Python's `sep.join(parts)`. */
  function Join(sep: string, parts: seq<string>): string
  {
    if |parts| == 0 then ""
    else if |parts| == 1 then parts[0]
    else parts[0] + sep + Join(sep, parts[1..])
  }

  /** Joining one more part adds one separator and the part at the end. */
  lemma {:induction false} JoinSnoc(sep: string, parts: seq<string>, p: string)
    requires parts != []
    ensures Join(sep, parts + [p]) == Join(sep, parts) + sep + p
  {
    if |parts| == 1 {
      assert parts + [p] == [parts[0], p];
      assert [parts[0], p][1..] == [p];
    } else {
      assert (parts + [p])[1..] == parts[1..] + [p];
      JoinSnoc(sep, parts[1..], p);
    }
  }

  /** Python's `s.startswith(prefix)`. */
  predicate StartsWith(s: string, prefix: string)
  {
    prefix <= s
  }

  /** Python's `t in s` for two strings. */
  predicate Contains(s: string, t: string)
  {
    exists i | 0 <= i <= |s| :: t <= s[i..]
  }

  /** Concatenation of a sequence of sequences. */
  function Concat<T>(ss: seq<seq<T>>): seq<T>
  {
    if ss == [] then [] else ss[0] + Concat(ss[1..])
  }

  /** Python's `str(n)` for a natural number. */
  function NatToString(n: nat): (r: string)
    ensures |r| > 0
    decreases n
  {
    if n < 10 then ["0123456789"[n]] else NatToString(n / 10) + ["0123456789"[n % 10]]
  }

  // ---------------------------------------------------------------------
  // Lines

  /** The line boundaries recognised by Python's `str.splitlines`. */
  predicate IsLineBreak(c: char)
  {
    || c == '\n' || c == '\r' || c == '\U{000B}' || c == '\U{000C}'
    || c == '\U{001C}' || c == '\U{001D}' || c == '\U{001E}'
    || c == '\U{0085}' || c == '\U{2028}' || c == '\U{2029}'
  }

  predicate NoLineBreak(s: string)
  {
    forall i | 0 <= i < |s| :: !IsLineBreak(s[i])
  }

  /** Python's `s.splitlines()`: the lines of `s` without their terminators,
      where `\r\n` is one terminator and a terminator at the very end does not
      open a further, empty line. */
  function SplitLines(s: string): seq<string>
  {
    SplitFrom(s, [])
  }

  /** `splitlines` scanning `s` with the characters `cur` of the current line
      already read. */
  function SplitFrom(s: string, cur: string): seq<string>
    decreases |s|
  {
    if s == [] then (if cur == [] then [] else [cur])
    else if s[0] == '\r' && |s| > 1 && s[1] == '\n' then [cur] + SplitFrom(s[2..], [])
    else if IsLineBreak(s[0]) then [cur] + SplitFrom(s[1..], [])
    else SplitFrom(s[1..], cur + [s[0]])
  }

  /** Characters without boundaries only extend the current line. */
  lemma {:induction false} SplitFromPlain(l: string, rest: string, cur: string)
    requires NoLineBreak(l)
    ensures SplitFrom(l + rest, cur) == SplitFrom(rest, cur + l)
    decreases |l|
  {
    if l == [] {
      assert l + rest == rest;
      assert cur + l == cur;
    } else {
      assert (l + rest)[1..] == l[1..] + rest;
      assert (l + rest)[0] == l[0];
      SplitFromPlain(l[1..], rest, cur + [l[0]]);
      assert cur + [l[0]] + l[1..] == cur + l;
    }
  }

  /** A text without boundaries is one line. */
  lemma SplitLinesSingle(l: string)
    requires l != [] && NoLineBreak(l)
    ensures SplitLines(l) == [l]
  {
    SplitFromPlain(l, [], []);
    assert l + [] == l;
    assert [] + l == l;
  }

  /** A line terminated by `\n` is split off the front of the text. */
  lemma SplitLinesLine(l: string, rest: string)
    requires NoLineBreak(l)
    ensures SplitLines(l + "\n" + rest) == [l] + SplitLines(rest)
  {
    SplitFromPlain(l, "\n" + rest, []);
    assert l + "\n" + rest == l + ("\n" + rest);
    assert ("\n" + rest)[1..] == rest;
    assert [] + l == l;
  }

  /** No line produced by `splitlines` contains a boundary. */
  lemma {:induction false} SplitFromNoBreaks(s: string, cur: string)
    requires NoLineBreak(cur)
    ensures forall i | 0 <= i < |SplitFrom(s, cur)| :: NoLineBreak(SplitFrom(s, cur)[i])
    decreases |s|
  {
    if s == [] {
    } else if s[0] == '\r' && |s| > 1 && s[1] == '\n' {
      SplitFromNoBreaks(s[2..], []);
    } else if IsLineBreak(s[0]) {
      SplitFromNoBreaks(s[1..], []);
    } else {
      SplitFromNoBreaks(s[1..], cur + [s[0]]);
    }
  }

  /** Splitting distributes over concatenation when the first text ends in
      `\n`: no line can straddle the seam. */
  lemma {:induction false} SplitFromAppendClosed(a: string, b: string, cur: string)
    requires a != [] && a[|a| - 1] == '\n'
    ensures SplitFrom(a + b, cur) == SplitFrom(a, cur) + SplitLines(b)
    decreases |a|
  {
    var s := a + b;
    assert s[0] == a[0];
    if a[0] == '\r' && |a| > 1 && a[1] == '\n' {
      assert s[1] == a[1];
      assert s[2..] == a[2..] + b;
      if |a| == 2 {
        assert s[2..] == b;
      } else {
        SplitFromAppendClosed(a[2..], b, []);
      }
    } else if IsLineBreak(a[0]) {
      assert !(s[0] == '\r' && |s| > 1 && s[1] == '\n') by {
        if |a| == 1 {
          assert a[0] == '\n';
        } else {
          assert s[1] == a[1];
        }
      }
      assert s[1..] == a[1..] + b;
      if |a| == 1 {
        assert s[1..] == b;
      } else {
        SplitFromAppendClosed(a[1..], b, []);
      }
    } else {
      assert s[1..] == a[1..] + b;
      SplitFromAppendClosed(a[1..], b, cur + [a[0]]);
    }
  }

  /** Splitting distributes over concatenation when the first text is empty or
      ends in `\n`. */
  lemma SplitLinesAppendClosed(a: string, b: string)
    requires a == [] || a[|a| - 1] == '\n'
    ensures SplitLines(a + b) == SplitLines(a) + SplitLines(b)
  {
    if a == [] {
      assert a + b == b;
    } else {
      SplitFromAppendClosed(a, b, []);
    }
  }

  /** Appending `x + "\n"` to a text that is empty or ends in `\n` adds exactly
      the line `x`. */
  lemma SplitLinesAppendLine(r: string, x: string)
    requires r == [] || r[|r| - 1] == '\n'
    requires NoLineBreak(x)
    ensures SplitLines(r + x + "\n") == SplitLines(r) + [x]
  {
    SplitLinesAppendClosed(r, x + "\n");
    SplitLinesLine(x, "");
    assert x + "\n" + "" == x + "\n";
    assert r + x + "\n" == r + (x + "\n");
  }

  /** `"\n".join` and `splitlines` are inverse on lines without boundaries whose
      last line is not empty. */
  lemma {:induction false} SplitLinesOfJoin(ids: seq<string>)
    requires forall i | 0 <= i < |ids| :: NoLineBreak(ids[i])
    requires ids == [] || ids[|ids| - 1] != ""
    ensures SplitLines(Join("\n", ids)) == ids
  {
    if |ids| == 1 {
      SplitLinesSingle(ids[0]);
    } else if |ids| > 1 {
      SplitLinesLine(ids[0], Join("\n", ids[1..]));
      SplitLinesOfJoin(ids[1..]);
    }
  }

  /** Appending `x + "\n"` to a `"\n".join` of lines glues `x` onto the last
      line, because the join leaves no terminator after it. */
  lemma {:induction false} SplitLinesOfJoinAppend(ids: seq<string>, x: string)
    requires ids != []
    requires forall i | 0 <= i < |ids| :: NoLineBreak(ids[i])
    requires NoLineBreak(x)
    ensures SplitLines(Join("\n", ids) + x + "\n") == ids[..|ids| - 1] + [ids[|ids| - 1] + x]
  {
    if |ids| == 1 {
      SplitLinesLine(ids[0] + x, "");
      assert ids[0] + x + "\n" + "" == Join("\n", ids) + x + "\n";
    } else {
      var tail := Join("\n", ids[1..]);
      assert Join("\n", ids) + x + "\n" == ids[0] + "\n" + (tail + x + "\n");
      SplitLinesLine(ids[0], tail + x + "\n");
      SplitLinesOfJoinAppend(ids[1..], x);
      assert [ids[0]] + (ids[1..][..|ids| - 2] + [ids[|ids| - 1] + x])
          == ids[..|ids| - 1] + [ids[|ids| - 1] + x];
    }
  }

  /** Lines joined by `"\n"` with a final `"\n"` read back as the lines. */
  lemma SplitLinesOfTerminatedJoin(ids: seq<string>)
    requires ids != []
    requires forall i | 0 <= i < |ids| :: NoLineBreak(ids[i])
    ensures SplitLines(Join("\n", ids) + "\n") == ids
  {
    SplitLinesOfJoinAppend(ids, "");
    GlueNothing(ids);
    AppendNothing(Join("\n", ids));
  }

  /** Gluing `""` onto the last line leaves the lines as they were. */
  lemma GlueNothing(ids: seq<string>)
    requires ids != []
    ensures ids[..|ids| - 1] + [ids[|ids| - 1] + ""] == ids
  {
    assert ids[|ids| - 1] + "" == ids[|ids| - 1];
  }

  /** Appending the empty text changes nothing. */
  lemma AppendNothing(s: string)
    ensures s + "" == s
  {
  }

  // ---------------------------------------------------------------------
  // Paths and case

  /** The text after the last `sep` in `s`, or all of `s` when `sep` does not
      occur: Python's `s.split(sep)[-1]`. */
  function LastSegment(s: string, sep: char): (r: string)
    ensures sep !in r
    ensures |r| <= |s| && s[|s| - |r|..] == r
    ensures |r| < |s| ==> s[|s| - |r| - 1] == sep
  {
    if s == [] then []
    else if s[|s| - 1] == sep then []
    else LastSegment(s[..|s| - 1], sep) + [s[|s| - 1]]
  }

  /** A string without `sep` is its own last segment. */
  lemma {:induction false} LastSegmentWhole(s: string, sep: char)
    requires sep !in s
    ensures LastSegment(s, sep) == s
    decreases |s|
  {
    if s != [] {
      var init := s[..|s| - 1];
      assert s == init + [s[|s| - 1]];
      assert s[|s| - 1] != sep && sep !in init;
      LastSegmentWhole(init, sep);
    }
  }

  /** Whatever precedes the last `sep` does not matter to the last segment. */
  lemma {:induction false} LastSegmentAfterSep(a: string, sep: char, b: string)
    ensures LastSegment(a + [sep] + b, sep) == LastSegment(b, sep)
    decreases |b|
  {
    var s := a + [sep] + b;
    if b == [] {
      assert s[|s| - 1] == sep;
    } else if b[|b| - 1] == sep {
      assert s[|s| - 1] == sep;
    } else {
      var b', c := b[..|b| - 1], b[|b| - 1];
      SplitLast(a, sep, b);
      calc {
        LastSegment(s, sep);
        LastSegment(a + [sep] + b', sep) + [c];
        { LastSegmentAfterSep(a, sep, b'); }
        LastSegment(b', sep) + [c];
        LastSegment(b, sep);
      }
    }
  }

  /** Dropping the last character of `a + [sep] + b` drops it from `b`. */
  lemma SplitLast(a: string, sep: char, b: string)
    requires b != []
    ensures var s := a + [sep] + b;
      s[..|s| - 1] == a + [sep] + b[..|b| - 1] && s[|s| - 1] == b[|b| - 1]
  {
  }

  /** Python's `s.rfind(c)`. */
  function LastIndexOf(s: string, c: char): (i: int)
    ensures -1 <= i < |s|
    ensures i >= 0 ==> s[i] == c
    ensures forall k | i < k < |s| :: s[k] != c
  {
    if s == [] then -1
    else if s[|s| - 1] == c then |s| - 1
    else LastIndexOf(s[..|s| - 1], c)
  }

  /** `PurePath.name`: the final component of a `/`-separated path. */
  function PathName(path: string): string
  {
    LastSegment(path, '/')
  }

  /** `PurePath.suffix` of a final component: the text from its last dot,
      provided that dot is neither its first nor its last character. */
  function Suffix(name: string): string
  {
    var i := LastIndexOf(name, '.');
    if 0 < i < |name| - 1 then name[i..] else ""
  }

  function LowerChar(c: char): char
  {
    if 'A' <= c <= 'Z' then (c as int + 32) as char else c
  }

  /** `str.lower()` on the ASCII letters. */
  function Lower(s: string): (r: string)
    ensures |r| == |s|
    ensures forall i | 0 <= i < |s| :: r[i] == LowerChar(s[i])
  {
    seq(|s|, i requires 0 <= i < |s| => LowerChar(s[i]))
  }

  // ---------------------------------------------------------------------
  // Whitespace

  /** The characters for which Python's `str.isspace` holds. */
  predicate IsSpace(c: char)
  {
    || ('\t' <= c <= '\r') || ('\U{001C}' <= c <= ' ')
    || c == '\U{0085}' || c == '\U{00A0}' || c == '\U{1680}'
    || ('\U{2000}' <= c <= '\U{200A}') || c == '\U{2028}' || c == '\U{2029}'
    || c == '\U{202F}' || c == '\U{205F}' || c == '\U{3000}'
  }

  /** The truth value of Python's `s.strip()`: some character of `s` is not
      whitespace. */
  predicate HasNonSpace(s: string)
  {
    exists i | 0 <= i < |s| :: !IsSpace(s[i])
  }
}
