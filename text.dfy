/**
 * String building blocks shared by the renderers: joining with a separator, repetition,
 * the decimal rendering of Go's `%d` verb for a non-negative count, and the inverse
 * operations (splitting into lines, reading a count back) used to state what a rendered
 * text means.
 */
module Text {

  /** The parts separated by `sep`, built left to right as the renderers' loops do. */
  function Join(parts: seq<string>, sep: string): string
  {
    if |parts| == 0 then ""
    else if |parts| == 1 then parts[0]
    else Join(parts[..|parts| - 1], sep) + sep + parts[|parts| - 1]
  }

  /** Appending one more part to a non-empty list appends a separator and the part. */
  lemma JoinSnoc(parts: seq<string>, sep: string, x: string)
    requires |parts| >= 1
    ensures Join(parts + [x], sep) == Join(parts, sep) + sep + x
  {
    assert (parts + [x])[..|parts|] == parts;
  }

  /** `n` copies of `s`. */
  function Repeat(s: string, n: nat): string
  {
    if n == 0 then "" else s + Repeat(s, n - 1)
  }

  lemma {:induction false} RepeatSnoc(s: string, n: nat)
    ensures Repeat(s, n + 1) == Repeat(s, n) + s
  {
    if n > 0 {
      RepeatSnoc(s, n - 1);
    }
  }

  /** Offset in `Join(parts, sep)` at which part `i` starts. */
  function PartStart(parts: seq<string>, sep: string, i: nat): nat
    requires i < |parts|
  {
    if i == 0 then 0 else PartStart(parts, sep, i - 1) + |parts[i - 1]| + |sep|
  }

  /** Where a part starts depends only on the parts before it. */
  lemma {:induction false} PartStartPrefix(parts: seq<string>, k: nat, sep: string, i: nat)
    requires i < k <= |parts|
    ensures PartStart(parts[..k], sep, i) == PartStart(parts, sep, i)
  {
    if i > 0 {
      PartStartPrefix(parts, k, sep, i - 1);
    }
  }

  /** The joined text is as long as the offset of the last part plus that part. */
  lemma {:induction false} JoinLength(parts: seq<string>, sep: string)
    requires |parts| >= 1
    ensures |Join(parts, sep)| == PartStart(parts, sep, |parts| - 1) + |parts[|parts| - 1]|
  {
    if |parts| > 1 {
      var init := parts[..|parts| - 1];
      JoinLength(init, sep);
      PartStartPrefix(parts, |parts| - 1, sep, |parts| - 2);
    }
  }

  /** Part `i` can be read back from the joined text at its offset. */
  lemma {:induction false} JoinPart(parts: seq<string>, sep: string, i: nat)
    requires i < |parts|
    ensures PartStart(parts, sep, i) + |parts[i]| <= |Join(parts, sep)|
    ensures Join(parts, sep)[PartStart(parts, sep, i)..PartStart(parts, sep, i) + |parts[i]|] == parts[i]
  {
    if |parts| > 1 {
      var init := parts[..|parts| - 1];
      var j := Join(init, sep);
      assert Join(parts, sep) == j + sep + parts[|parts| - 1];
      if i < |parts| - 1 {
        JoinPart(init, sep, i);
        PartStartPrefix(parts, |parts| - 1, sep, i);
        var p := PartStart(parts, sep, i);
        assert Join(parts, sep)[p..p + |parts[i]|] == j[p..p + |parts[i]|];
      } else {
        JoinLength(init, sep);
        PartStartPrefix(parts, |parts| - 1, sep, |parts| - 2);
      }
    }
  }

  /** Number of occurrences of the character `c` in `s`. */
  function Count(c: char, s: string): nat
  {
    if |s| == 0 then 0 else Count(c, s[..|s| - 1]) + (if s[|s| - 1] == c then 1 else 0)
  }

  lemma {:induction false} CountAppend(c: char, a: string, b: string)
    ensures Count(c, a + b) == Count(c, a) + Count(c, b)
  {
    if |b| == 0 {
      assert a + b == a;
    } else {
      assert (a + b)[..|a + b| - 1] == a + b[..|b| - 1];
      CountAppend(c, a, b[..|b| - 1]);
    }
  }

  lemma {:induction false} CountAbsent(c: char, s: string)
    requires c !in s
    ensures Count(c, s) == 0
  {
    if |s| > 0 {
      assert s[..|s| - 1] + [s[|s| - 1]] == s;
      CountAbsent(c, s[..|s| - 1]);
    }
  }

  lemma CountSingle(c: char, x: char)
    ensures Count(c, [x]) == if x == c then 1 else 0
  {
    assert [x][..0] == [];
  }

  lemma {:induction false} CountZero(c: char, s: string)
    ensures Count(c, s) == 0 <==> c !in s
  {
    if |s| > 0 {
      assert s[..|s| - 1] + [s[|s| - 1]] == s;
      CountZero(c, s[..|s| - 1]);
    }
  }

  /**
   * A separator with one `c` between parts free of `c` puts exactly one `c` between
   * neighbours: `|parts| - 1` in all.
   */
  lemma {:induction false} CountJoin(c: char, parts: seq<string>, sep: string)
    requires |parts| >= 1
    requires forall i :: 0 <= i < |parts| ==> c !in parts[i]
    ensures Count(c, Join(parts, sep)) == (|parts| - 1) * Count(c, sep)
  {
    if |parts| == 1 {
      CountAbsent(c, parts[0]);
    } else {
      var init := parts[..|parts| - 1];
      CountJoin(c, init, sep);
      CountAppend(c, Join(init, sep), sep);
      CountAppend(c, Join(init, sep) + sep, parts[|parts| - 1]);
      CountAbsent(c, parts[|parts| - 1]);
    }
  }

  /** Number of positions at which `pat` starts in `s` (overlapping occurrences included). */
  function Occurrences(s: string, pat: string): nat
    requires |pat| > 0
    decreases |s|
  {
    if |s| < |pat| then 0
    else (if s[..|pat|] == pat then 1 else 0) + Occurrences(s[1..], pat)
  }

  /** A position whose character differs from the pattern's first one starts no occurrence. */
  lemma OccurrencesSkip(s: string, pat: string)
    requires |pat| > 0 && |s| > 0 && s[0] != pat[0]
    ensures Occurrences(s, pat) == Occurrences(s[1..], pat)
  {
    if |s| >= |pat| {
      assert s[..|pat|][0] != pat[0];
    }
  }

  // ---------------------------------------------------------------------------
  // Lines

  /** Each line followed by a newline, in order. */
  function Terminated(lines: seq<string>): string
  {
    if |lines| == 0 then "" else Terminated(lines[..|lines| - 1]) + lines[|lines| - 1] + "\n"
  }

  lemma TerminatedSnoc(lines: seq<string>, x: string)
    ensures Terminated(lines + [x]) == Terminated(lines) + x + "\n"
  {
    assert (lines + [x])[..|lines|] == lines;
  }

  lemma {:induction false} TerminatedAppend(a: seq<string>, b: seq<string>)
    ensures Terminated(a + b) == Terminated(a) + Terminated(b)
  {
    if |b| == 0 {
      assert a + b == a;
    } else {
      var b', last := b[..|b| - 1], b[|b| - 1];
      TerminatedAppend(a, b');
      TerminatedSnocOf(a + b', a + b, last);
      TerminatedSnocOf(b', b, last);
      ConcatAssoc(Terminated(a), Terminated(b'), last + "\n");
    }
  }

  /** `Terminated` of a sequence whose last element is `last`. */
  lemma TerminatedSnocOf(init: seq<string>, lines: seq<string>, last: string)
    requires |lines| == |init| + 1 && lines[..|init|] == init && lines[|init|] == last
    ensures Terminated(lines) == Terminated(init) + (last + "\n")
  {
  }

  /** Appending the next line of `lines` to the text of its first `k` lines. */
  lemma TerminatedStep(prefix: string, lines: seq<string>, k: nat)
    requires k < |lines|
    ensures prefix + Terminated(lines[..k]) + (lines[k] + "\n") == prefix + Terminated(lines[..k + 1])
  {
    TerminatedSnocOf(lines[..k], lines[..k + 1], lines[k]);
    ConcatAssoc(prefix, Terminated(lines[..k]), lines[k] + "\n");
  }

  lemma ConcatAssoc(x: string, y: string, z: string)
    ensures (x + y) + z == x + (y + z)
  {
  }

  /** Newline-terminated lines are the lines joined by newlines, plus a final newline. */
  lemma {:induction false} TerminatedIsJoin(lines: seq<string>)
    requires |lines| >= 1
    ensures Terminated(lines) == Join(lines, "\n") + "\n"
  {
    if |lines| > 1 {
      TerminatedIsJoin(lines[..|lines| - 1]);
    }
  }

  /**
   * Terminated lines followed by one more newline and a last line: the shape of every
   * rendered table (its lines, a blank line, a summary line).
   */
  lemma TerminatedThenSummary(lines: seq<string>, summary: string)
    requires |lines| >= 1
    ensures Terminated(lines) + "\n" + summary == Join(lines + ["", summary], "\n")
  {
    var j := Join(lines, "\n");
    TerminatedIsJoin(lines);
    JoinSnoc(lines, "\n", "");
    var blank := Join(lines + [""], "\n");
    assert blank == j + "\n";
    JoinSnoc(lines + [""], "\n", summary);
    assert lines + [""] + [summary] == lines + ["", summary];
    assert Join(lines + ["", summary], "\n") == blank + "\n" + summary;
    assert Terminated(lines) + "\n" + summary == (j + "\n") + "\n" + summary;
  }

  /** The lines of `s`, split at every newline (Go's `strings.Split(s, "\n")`). */
  function SplitLines(s: string): (lines: seq<string>)
    ensures |lines| >= 1
  {
    if |s| == 0 then [""] else AddChar(SplitLines(s[..|s| - 1]), s[|s| - 1])
  }

  /** The lines after one more character: a newline starts a new line, anything else extends the last. */
  function AddChar(lines: seq<string>, c: char): (r: seq<string>)
    requires |lines| >= 1
    ensures |r| >= 1
  {
    if c == '\n' then lines + [""] else lines[..|lines| - 1] + [lines[|lines| - 1] + [c]]
  }

  /** A character added after `x + y` lands in `y`. */
  lemma AddCharAppend(x: seq<string>, y: seq<string>, c: char)
    requires |y| >= 1
    ensures AddChar(x + y, c) == x + AddChar(y, c)
  {
    if c == '\n' {
      assert (x + y) + [""] == x + (y + [""]);
    } else {
      var xy := x + y;
      assert xy[..|xy| - 1] == x + y[..|y| - 1];
      assert xy[|xy| - 1] == y[|y| - 1];
    }
  }

  lemma {:induction false} SplitNoNewline(s: string)
    requires '\n' !in s
    ensures SplitLines(s) == [s]
  {
    if |s| > 0 {
      assert s[..|s| - 1] + [s[|s| - 1]] == s;
      SplitNoNewline(s[..|s| - 1]);
    }
  }

  /** One more character either starts a new line or extends the last one. */
  lemma SplitSnoc(s: string, c: char)
    ensures SplitLines(s + [c]) == AddChar(SplitLines(s), c)
  {
    assert (s + [c])[..|s + [c]| - 1] == s;
  }

  lemma SplitAppendSnoc(a: string, b: string, c: char)
    requires SplitLines(a + "\n" + b) == SplitLines(a) + SplitLines(b)
    ensures SplitLines((a + "\n" + b) + [c]) == SplitLines(a) + SplitLines(b + [c])
  {
    SplitSnoc(a + "\n" + b, c);
    SplitSnoc(b, c);
    AddCharAppend(SplitLines(a), SplitLines(b), c);
  }

  lemma {:induction false} SplitAppend(a: string, b: string)
    ensures SplitLines(a + "\n" + b) == SplitLines(a) + SplitLines(b)
  {
    if |b| == 0 {
      assert a + "\n" + b == a + ['\n'];
      SplitSnoc(a, '\n');
      assert SplitLines(b) == [""];
    } else {
      var b', c := b[..|b| - 1], b[|b| - 1];
      SplitAppend(a, b');
      SplitAppendSnoc(a, b', c);
      assert b' + [c] == b;
      ConcatAssoc(a + "\n", b', [c]);
    }
  }

  /** A last line without newline after a text: the text's lines, then that line. */
  lemma SplitThenLine(body: string, summary: string)
    requires '\n' !in summary
    ensures SplitLines(body + "\n" + summary) == SplitLines(body) + [summary]
  {
    SplitAppend(body, summary);
    SplitNoNewline(summary);
  }

  /** Splitting newline-joined lines that hold no newline gives the lines back. */
  lemma {:induction false} SplitJoin(lines: seq<string>)
    requires |lines| >= 1
    requires forall i :: 0 <= i < |lines| ==> '\n' !in lines[i]
    ensures SplitLines(Join(lines, "\n")) == lines
  {
    if |lines| == 1 {
      SplitNoNewline(lines[0]);
    } else {
      var init := lines[..|lines| - 1];
      SplitJoin(init);
      SplitAppend(Join(init, "\n"), lines[|lines| - 1]);
      SplitNoNewline(lines[|lines| - 1]);
      assert init + [lines[|lines| - 1]] == lines;
    }
  }

  // ---------------------------------------------------------------------------
  // Fields of a delimited text

  /** The text before the first `c` (all of `s` if there is none). */
  function UpTo(s: string, c: char): string
  {
    if |s| == 0 || s[0] == c then "" else [s[0]] + UpTo(s[1..], c)
  }

  lemma {:induction false} UpToFirst(a: string, c: char, b: string)
    requires c !in a
    ensures UpTo(a + [c] + b, c) == a
  {
    if |a| > 0 {
      assert (a + [c] + b)[1..] == a[1..] + [c] + b;
      UpToFirst(a[1..], c, b);
    }
  }

  /** The text after the last `c` (all of `s` if there is none). */
  function AfterLast(s: string, c: char): string
  {
    if |s| == 0 || s[|s| - 1] == c then "" else AfterLast(s[..|s| - 1], c) + [s[|s| - 1]]
  }

  lemma {:induction false} AfterLastOf(a: string, c: char, b: string)
    requires c !in b
    ensures AfterLast(a + [c] + b, c) == b
  {
    if |b| > 0 {
      var b' := b[..|b| - 1];
      assert (a + [c] + b)[..|a + [c] + b| - 1] == a + [c] + b';
      assert b' + [b[|b| - 1]] == b;
      AfterLastOf(a, c, b');
    }
  }

  // ---------------------------------------------------------------------------
  // Decimal numbers, as Go's `%d` prints a non-negative int

  predicate IsDigit(c: char)
  {
    '0' <= c <= '9'
  }

  predicate AllDigits(s: string)
  {
    forall i :: 0 <= i < |s| ==> IsDigit(s[i])
  }

  function Digit(d: nat): char
    requires d < 10
  {
    (48 + d) as char
  }

  /** The decimal text of `n`, without sign or leading zeros. */
  function NatToString(n: nat): (s: string)
    ensures |s| >= 1 && AllDigits(s)
    ensures |s| > 1 ==> s[0] != '0'
  {
    if n < 10 then [Digit(n)] else NatToString(n / 10) + [Digit(n % 10)]
  }

  /** The value of a string of decimal digits. */
  function ParseNat(s: string): nat
    requires AllDigits(s)
  {
    if |s| == 0 then 0 else ParseNat(s[..|s| - 1]) * 10 + (s[|s| - 1] as int - 48)
  }

  /** Reading the decimal text back gives the number: the count a summary line reports is exact. */
  lemma {:induction false} ParseNatToString(n: nat)
    ensures ParseNat(NatToString(n)) == n
  {
    if n >= 10 {
      var s := NatToString(n);
      assert s[..|s| - 1] == NatToString(n / 10);
      ParseNatToString(n / 10);
    }
  }

  /** How many characters the count takes: the fact the describe-table window depends on. */
  lemma {:induction false} NatToStringLength(n: nat)
    ensures |NatToString(n)| == 1 <==> n < 10
    ensures |NatToString(n)| <= 2 <==> n < 100
    ensures |NatToString(n)| <= 3 <==> n < 1000
  {
    if n >= 10 {
      NatToStringLength(n / 10);
    }
  }

  /** The longest run of digits at the start of `s`. */
  function LeadingDigits(s: string): (d: string)
    ensures AllDigits(d)
  {
    if |s| == 0 || !IsDigit(s[0]) then "" else [s[0]] + LeadingDigits(s[1..])
  }

  lemma {:induction false} LeadingDigitsOf(d: string, rest: string)
    requires AllDigits(d)
    requires |rest| > 0 && !IsDigit(rest[0])
    ensures LeadingDigits(d + rest) == d
  {
    if |d| > 0 {
      assert (d + rest)[1..] == d[1..] + rest;
      LeadingDigitsOf(d[1..], rest);
    }
  }

  /** A decimal count followed by a suffix without newline holds no newline. */
  lemma CountLineSingleLine(n: nat, suffix: string)
    requires '\n' !in suffix
    ensures '\n' !in NatToString(n) + suffix
  {
    var d := NatToString(n);
    assert forall i :: 0 <= i < |d| ==> IsDigit(d[i]);
  }

  /** A count line is one line, and reading it back gives the count. */
  lemma CountLine(n: nat, suffix: string)
    requires |suffix| > 0 && !IsDigit(suffix[0]) && '\n' !in suffix
    ensures '\n' !in NatToString(n) + suffix
    ensures ReportedCount(NatToString(n) + suffix) == n
  {
    CountLineSingleLine(n, suffix);
    ReportedCountOf(n, suffix);
  }

  /** The number a summary line such as `3 row(s) returned` starts with. */
  function ReportedCount(line: string): nat
  {
    ParseNat(LeadingDigits(line))
  }

  /** A line made of a count and a non-digit suffix reports that count. */
  lemma ReportedCountOf(n: nat, suffix: string)
    requires |suffix| > 0 && !IsDigit(suffix[0])
    ensures ReportedCount(NatToString(n) + suffix) == n
  {
    LeadingDigitsOf(NatToString(n), suffix);
    ParseNatToString(n);
  }
}
