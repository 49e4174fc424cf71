/**
  The Python string operations the configuration editor relies on, over `string`
  (`seq<char>`): prefix tests, substring containment, `str.replace`, `str.rstrip`,
  `re.escape`, decimal rendering of integers, and `str.split("\n")` / `"\n".join(...)`.
*/
module Text {

  predicate StartsWith(s: string, prefix: string) {
    |prefix| <= |s| && s[..|prefix|] == prefix
  }

  /** `s[i..]` begins with `t`. */
  predicate OccursAt(s: string, t: string, i: nat) {
    i + |t| <= |s| && s[i..i + |t|] == t
  }

  /** A string occurs where it is put. */
  lemma OccursInConcat(a: string, x: string, b: string)
    ensures OccursAt(a + x + b, x, |a|)
  {
    assert (a + x + b)[|a|..|a| + |x|] == x;
  }

  /** A string occurs at the front of what it starts. */
  lemma OccursPrefix(x: string, b: string)
    ensures OccursAt(x + b, x, 0)
  {
    assert (x + b)[..|x|] == x;
  }

  /** A string occurs at the back of what it ends. */
  lemma OccursSuffix(a: string, y: string)
    ensures OccursAt(a + y, y, |a|)
  {
    assert (a + y)[|a|..] == y;
  }

  /** An occurrence moves right by what is put in front. */
  lemma OccursShift(a: string, s: string, y: string, i: nat)
    requires OccursAt(s, y, i)
    ensures OccursAt(a + s, y, |a| + i)
  {
    assert (a + s)[|a| + i..|a| + i + |y|] == s[i..i + |y|];
  }

  /** Where the first three of some nested pieces stand. */
  lemma FrontPieces(p0: string, p1: string, p2: string, rest: string)
    ensures var s := p0 + (p1 + (p2 + rest));
            OccursAt(s, p0, 0) && OccursAt(s, p1, |p0|) && OccursAt(s, p2, |p0| + |p1|)
  {
    OccursPrefix(p0, p1 + (p2 + rest));
    OccursPrefix(p1, p2 + rest);
    OccursShift(p0, p1 + (p2 + rest), p1, 0);
    OccursPrefix(p2, rest);
    OccursShift(p1, p2 + rest, p2, 0);
    OccursShift(p0, p1 + (p2 + rest), p2, |p1|);
  }

  /** Where each of three nested pieces stands. */
  lemma LastPieces(p0: string, p1: string, p2: string)
    ensures var s := p0 + (p1 + p2);
            OccursAt(s, p0, 0) && OccursAt(s, p1, |p0|) && OccursAt(s, p2, |p0| + |p1|)
  {
    OccursPrefix(p0, p1 + p2);
    OccursPrefix(p1, p2);
    OccursShift(p0, p1 + p2, p1, 0);
    OccursSuffix(p1, p2);
    OccursShift(p0, p1 + p2, p2, |p1|);
  }

  /** An occurrence in what follows three pieces, seen from the front. */
  lemma BehindPieces(p0: string, p1: string, p2: string, rest: string, y: string, i: nat, j: nat)
    requires OccursAt(rest, y, i) && j == |p0| + |p1| + |p2| + i
    ensures OccursAt(p0 + (p1 + (p2 + rest)), y, j)
  {
    OccursShift(p2, rest, y, i);
    OccursShift(p1, p2 + rest, y, |p2| + i);
    OccursShift(p0, p1 + (p2 + rest), y, |p1| + (|p2| + i));
  }

  /** Where each of six nested pieces stands in their concatenation. */
  lemma NestedPieces(p0: string, p1: string, p2: string, p3: string, p4: string, p5: string)
    ensures var s := p0 + (p1 + (p2 + (p3 + (p4 + p5))));
            && OccursAt(s, p0, 0) && OccursAt(s, p1, |p0|) && OccursAt(s, p2, |p0| + |p1|)
            && OccursAt(s, p3, |p0| + |p1| + |p2|) && OccursAt(s, p4, |p0| + |p1| + |p2| + |p3|)
            && OccursAt(s, p5, |p0| + |p1| + |p2| + |p3| + |p4|)
  {
    FrontPieces(p0, p1, p2, p3 + (p4 + p5));
    RearPieces(p0, p1, p2, p3, p4, p5);
  }

  /** The last three of six nested pieces. */
  lemma RearPieces(p0: string, p1: string, p2: string, p3: string, p4: string, p5: string)
    ensures var s := p0 + (p1 + (p2 + (p3 + (p4 + p5))));
            && OccursAt(s, p3, |p0| + |p1| + |p2|) && OccursAt(s, p4, |p0| + |p1| + |p2| + |p3|)
            && OccursAt(s, p5, |p0| + |p1| + |p2| + |p3| + |p4|)
  {
    var rest := p3 + (p4 + p5);
    LastPieces(p3, p4, p5);
    BehindPieces(p0, p1, p2, rest, p3, 0, |p0| + |p1| + |p2|);
    BehindPieces(p0, p1, p2, rest, p4, |p3|, |p0| + |p1| + |p2| + |p3|);
    BehindPieces(p0, p1, p2, rest, p5, |p3| + |p4|, |p0| + |p1| + |p2| + |p3| + |p4|);
  }

  /** A line put between two newlines occurs there. */
  lemma OccursBetweenNewlines(a: string, x: string, c: string)
    ensures OccursAt(a + "\n" + x + "\n" + c, x, |a| + 1)
  {
    assert (a + "\n" + x + "\n" + c)[|a| + 1..|a| + 1 + |x|] == x;
  }

  /** Two adjacent occurrences are one occurrence of the concatenation. */
  lemma OccursJoin(s: string, x: string, y: string, i: nat)
    requires OccursAt(s, x, i) && OccursAt(s, y, i + |x|)
    ensures OccursAt(s, x + y, i)
  {
    assert s[i..i + |x| + |y|] == s[i..i + |x|] + s[i + |x|..i + |x| + |y|];
  }

  /** An occurrence of a concatenation is an occurrence of each part. */
  lemma OccursSplit(s: string, x: string, y: string, i: nat)
    requires OccursAt(s, x + y, i)
    ensures OccursAt(s, x, i) && OccursAt(s, y, i + |x|)
  {
    assert s[i..i + |x|] == (x + y)[..|x|];
    assert s[i + |x|..i + |x| + |y|] == (x + y)[|x|..];
  }

  /** Each character of an occurrence is the corresponding character of the string. */
  lemma OccursAtChar(s: string, t: string, i: nat, k: nat)
    requires OccursAt(s, t, i) && k < |t|
    ensures s[i + k] == t[k]
  {
    assert s[i..i + |t|][k] == t[k];
  }

  /** `t in s` for strings. */
  function Contains(s: string, t: string): (b: bool)
    ensures b <==> exists i: nat :: OccursAt(s, t, i)
    decreases |s|
  {
    if OccursAt(s, t, 0) then true
    else if |s| <= |t| then
      assert forall i: nat | OccursAt(s, t, i) :: i == 0;
      false
    else
      var r := Contains(s[1..], t);
      assert r ==> exists i: nat :: OccursAt(s, t, i) by {
        if r {
          var i: nat :| OccursAt(s[1..], t, i);
          OccursAtShift(s, t, i + 1);
        }
      }
      assert (exists i: nat :: OccursAt(s, t, i)) ==> r by {
        if exists i: nat :: OccursAt(s, t, i) {
          var i: nat :| OccursAt(s, t, i);
          OccursAtShift(s, t, i);
        }
      }
      r
  }

  lemma OccursAtShift(s: string, t: string, i: nat)
    requires 1 <= i && |s| >= 1
    ensures OccursAt(s, t, i) == OccursAt(s[1..], t, i - 1)
  {
    if i + |t| <= |s| {
      var a, b := s[i..i + |t|], s[1..][i - 1..i - 1 + |t|];
      forall c | 0 <= c < |t| ensures a[c] == b[c] {
        assert a[c] == s[i + c] && b[c] == s[1..][i - 1 + c];
      }
      assert a == b;
    }
  }

  /** `s.replace(pattern, replacement)`: non-overlapping occurrences of `pattern`, left to right. */
  function ReplaceAll(s: string, pattern: string, replacement: string): string
    requires |pattern| > 0
    decreases |s|
  {
    if |s| == 0 then ""
    else if StartsWith(s, pattern) then replacement + ReplaceAll(s[|pattern|..], pattern, replacement)
    else [s[0]] + ReplaceAll(s[1..], pattern, replacement)
  }

  /** `s.rstrip(c)`: drops every trailing `c`. */
  function RStrip(s: string, c: char): (r: string)
    ensures StartsWith(s, r)
    ensures r == [] || r[|r| - 1] != c
    ensures forall k | |r| <= k < |s| :: s[k] == c
    decreases |s|
  {
    if |s| > 0 && s[|s| - 1] == c then RStrip(s[..|s| - 1], c) else s
  }

  /** The characters `re.escape` (Python 3.7 and later) prefixes with a backslash. */
  predicate RegexSpecial(c: char) {
    c in "()[]{}?*+-|^$\\.&~# \t\n\r\U{b}\U{c}"
  }

  /** `re.escape(s)`. */
  function RegexEscape(s: string): (r: string)
    ensures (forall k | 0 <= k < |s| :: !RegexSpecial(s[k])) ==> r == s
    ensures |r| >= |s|
  {
    if s == [] then ""
    else (if RegexSpecial(s[0]) then ['\\', s[0]] else [s[0]]) + RegexEscape(s[1..])
  }

  predicate IsDigit(c: char) {
    '0' <= c <= '9'
  }

  function DigitChar(d: nat): (c: char)
    requires d < 10
    ensures IsDigit(c) && c as int - '0' as int == d
  {
    ('0' as int + d) as char
  }

  /** `str(n)` for a non-negative integer. */
  function Decimal(n: nat): (r: string)
    ensures |r| >= 1
    ensures forall k | 0 <= k < |r| :: IsDigit(r[k])
    decreases n
  {
    if n < 10 then [DigitChar(n)] else Decimal(n / 10) + [DigitChar(n % 10)]
  }

  /** `int(s)` for a string of decimal digits. */
  function ParseDecimal(s: string): nat
    requires forall k | 0 <= k < |s| :: IsDigit(s[k])
    decreases |s|
  {
    if s == [] then 0
    else
      assert IsDigit(s[|s| - 1]);
      10 * ParseDecimal(s[..|s| - 1]) + (s[|s| - 1] as int - '0' as int)
  }

  /** Reading back a rendered number gives the number. */
  lemma {:induction false} DecimalRoundTrip(n: nat)
    ensures ParseDecimal(Decimal(n)) == n
    decreases n
  {
    if n >= 10 {
      var r := Decimal(n);
      assert r == Decimal(n / 10) + [DigitChar(n % 10)];
      assert r[..|r| - 1] == Decimal(n / 10);
      DecimalRoundTrip(n / 10);
    }
  }

  /** Two numbers render alike only if they are equal. */
  lemma DecimalInjective(a: nat, b: nat)
    requires Decimal(a) == Decimal(b)
    ensures a == b
  {
    DecimalRoundTrip(a);
    DecimalRoundTrip(b);
  }

  /** `"\n".join(lines)`. */
  function Join(lines: seq<string>): string
    decreases |lines|
  {
    if |lines| == 0 then ""
    else if |lines| == 1 then lines[0]
    else lines[0] + "\n" + Join(lines[1..])
  }

  predicate NoNewline(s: string) {
    '\n' !in s
  }

  predicate LinesWithoutNewline(lines: seq<string>) {
    forall k | 0 <= k < |lines| :: NoNewline(lines[k])
  }

  /** The position of the first `c` in `s` (`s.index(c)`). */
  function IndexOf(s: string, c: char): (i: nat)
    requires c in s
    ensures i < |s| && s[i] == c && c !in s[..i]
    decreases |s|
  {
    if s[0] == c then 0
    else
      var i := IndexOf(s[1..], c);
      assert s[..i + 1] == [s[0]] + s[1..][..i];
      1 + i
  }

  /** `s.split("\n")`: the lines of `s`, without their separators. */
  function Split(s: string): (lines: seq<string>)
    ensures |lines| >= 1
    ensures LinesWithoutNewline(lines)
    ensures Join(lines) == s
    decreases |s|
  {
    if '\n' !in s then [s]
    else
      var i := IndexOf(s, '\n');
      var rest := Split(s[i + 1..]);
      assert s == s[..i] + "\n" + s[i + 1..];
      [s[..i]] + rest
  }

  /** Splitting joined lines gives the lines back, when no line holds a newline. */
  lemma {:induction false} SplitJoin(lines: seq<string>)
    requires |lines| >= 1 && LinesWithoutNewline(lines)
    ensures Split(Join(lines)) == lines
    decreases |lines|
  {
    if |lines| > 1 {
      assert lines == [lines[0]] + lines[1..];
      JoinFront(lines[0], lines[1..]);
      SplitFront(lines[0], Join(lines[1..]));
      SplitJoin(lines[1..]);
    }
  }

  /** A first line without a newline is split off at the newline after it. */
  lemma SplitFront(line: string, rest: string)
    requires NoNewline(line)
    ensures Split(line + "\n" + rest) == [line] + Split(rest)
  {
    var s := line + "\n" + rest;
    assert s[|line|] == '\n';
    assert s[..|line|] == line;
    assert IndexOf(s, '\n') == |line|;
    assert s[|line| + 1..] == rest;
  }

  /** Joining two non-empty groups of lines is joining each and putting a newline between. */
  lemma {:induction false} JoinAppend(a: seq<string>, b: seq<string>)
    requires |a| >= 1 && |b| >= 1
    ensures Join(a + b) == Join(a) + "\n" + Join(b)
    decreases |a|
  {
    if |a| == 1 {
      assert (a + b)[1..] == b;
    } else {
      assert (a + b)[1..] == a[1..] + b;
      JoinAppend(a[1..], b);
    }
  }

  /** The line at index `k` sits between the lines before it and the lines after it. */
  lemma JoinAround(lines: seq<string>, k: nat)
    requires 0 < k < |lines| - 1
    ensures Join(lines) == Join(lines[..k]) + "\n" + lines[k] + "\n" + Join(lines[k + 1..])
  {
    assert lines == lines[..k] + ([lines[k]] + lines[k + 1..]);
    JoinBetween(lines[..k], lines[k], lines[k + 1..]);
  }

  /** An inner line occurs in the joined text right after the newline that ends the lines
      before it. */
  lemma LineOccurs(lines: seq<string>, k: nat) returns (i: nat)
    requires 0 < k < |lines| - 1
    ensures i == |Join(lines[..k])| + 1 && OccursAt(Join(lines), lines[k], i)
  {
    JoinAround(lines, k);
    OccursBetweenNewlines(Join(lines[..k]), lines[k], Join(lines[k + 1..]));
    i := |Join(lines[..k])| + 1;
  }

  lemma JoinBetween(a: seq<string>, line: string, c: seq<string>)
    requires |a| >= 1 && |c| >= 1
    ensures Join(a + ([line] + c)) == Join(a) + "\n" + line + "\n" + Join(c)
  {
    JoinAppend(a, [line] + c);
    JoinFront(line, c);
    NewlineAssoc(Join(a), line, Join(c));
  }

  /** A line in front of non-empty lines is followed by a newline. */
  lemma JoinFront(line: string, rest: seq<string>)
    requires |rest| >= 1
    ensures Join([line] + rest) == line + "\n" + Join(rest)
  {
    assert ([line] + rest)[1..] == rest;
  }

  lemma NewlineAssoc(a: string, b: string, c: string)
    ensures a + "\n" + (b + "\n" + c) == a + "\n" + b + "\n" + c
  {
  }

  /** Every line prefixed with `prefix`. */
  function PrefixLines(prefix: string, lines: seq<string>): (r: seq<string>)
    ensures |r| == |lines|
    ensures forall k | 0 <= k < |lines| :: r[k] == prefix + lines[k]
  {
    seq(|lines|, k requires 0 <= k < |lines| => prefix + lines[k])
  }

  /** `"\n".join(f"    #{line}" for line in block.split("\n"))`: the block turned into comments. */
  function Commented(block: string): string {
    Join(PrefixLines("    #", Split(block)))
  }

  /** Removes `prefix` from the front of every line that has it. */
  function StripLinePrefix(prefix: string, lines: seq<string>): (r: seq<string>)
    ensures |r| == |lines|
  {
    seq(|lines|, k requires 0 <= k < |lines| =>
      if StartsWith(lines[k], prefix) then lines[k][|prefix|..] else lines[k])
  }

  /** Commenting a block out loses nothing: stripping the comment marks restores it. */
  lemma CommentedRoundTrip(block: string)
    ensures Join(StripLinePrefix("    #", Split(Commented(block)))) == block
  {
    var lines := Split(block);
    var commented := PrefixLines("    #", lines);
    assert LinesWithoutNewline(commented) by {
      forall k | 0 <= k < |commented| ensures NoNewline(commented[k]) {
        assert commented[k] == "    #" + lines[k];
        assert NoNewline(lines[k]);
      }
    }
    SplitJoin(commented);
    var stripped := StripLinePrefix("    #", commented);
    forall k | 0 <= k < |lines| ensures stripped[k] == lines[k] {
      assert commented[k] == "    #" + lines[k];
      assert commented[k][..5] == "    #";
    }
    assert stripped == lines;
  }

  /** Prefixing distributes over the concatenation of line lists. */
  lemma PrefixLinesAppend(prefix: string, a: seq<string>, b: seq<string>)
    ensures PrefixLines(prefix, a + b) == PrefixLines(prefix, a) + PrefixLines(prefix, b)
  {
  }

  /** A single line among joined lines comes out of commenting as that line behind the prefix. */
  lemma CommentedLineAt(lines: seq<string>, k: nat)
    requires 0 < k < |lines| - 1 && NoNewline(lines[k])
    ensures OccursAt(Commented(Join(lines)), "    #" + lines[k], |Commented(Join(lines[..k]))| + 1)
  {
    var a, c := Join(lines[..k]), Join(lines[k + 1..]);
    JoinAround(lines, k);
    CommentedAround(a, lines[k], c);
    OccursBetweenNewlines(Commented(a), "    #" + lines[k], Commented(c));
  }

  /** Commenting out text around a single line comments out the text before it, the line,
      and the text after it, each on its own. */
  lemma CommentedAround(a: string, line: string, c: string)
    requires NoNewline(line)
    ensures Commented(a + "\n" + line + "\n" + c) == Commented(a) + "\n" + ("    #" + line) + "\n" + Commented(c)
  {
    var pre, post := Split(a), Split(c);
    var lines := pre + [line] + post;
    JoinAppend(pre + [line], post);
    JoinAppend(pre, [line]);
    assert Join(lines) == a + "\n" + line + "\n" + c;
    assert LinesWithoutNewline(lines) by {
      forall k | 0 <= k < |lines| ensures NoNewline(lines[k]) {
        if k < |pre| { assert lines[k] == pre[k]; }
        else if k == |pre| { assert lines[k] == line; }
        else { assert lines[k] == post[k - |pre| - 1]; }
      }
    }
    CommentedLines(lines);
    var cpre, cpost := PrefixLines("    #", pre), PrefixLines("    #", post);
    PrefixLinesAppend("    #", pre + [line], post);
    PrefixLinesAppend("    #", pre, [line]);
    assert PrefixLines("    #", [line]) == ["    #" + line];
    JoinAppend(cpre + ["    #" + line], cpost);
    JoinAppend(cpre, ["    #" + line]);
  }

  /** Commenting out joined lines prefixes each of them, when no line holds a newline. */
  lemma CommentedLines(lines: seq<string>)
    requires |lines| >= 1 && LinesWithoutNewline(lines)
    ensures Commented(Join(lines)) == Join(PrefixLines("    #", lines))
  {
    SplitJoin(lines);
  }
}
