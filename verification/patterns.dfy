/**
  The regular expressions of the configuration editor, transcribed node by node into the
  patterns of module Regex, and the meaning of the block-header pattern
  `<keyword>\s+<word>\s*\{` stated directly over the text.

  The `re.DOTALL` and `re.MULTILINE` flags the editor passes change nothing here: none of
  its patterns contains `.`, `^` or `$`.  Escaped words (`re.escape(endpoint)`) are literal
  text, so they become `Lit` nodes.  Groups whose span is never read are left out; they do
  not change what a pattern matches.
*/
module Patterns {
  import opened Regex
  import opened Text

  /** `<keyword>\s+<word>\s*\{`: the header of a `location` or `upstream` block. */
  function HeaderPattern(keyword: string, word: string): Pat {
    Then(Lit(keyword), Then(Rep(Space, 1), Then(Lit(word), Then(Rep(Space, 0), Then(Lit("{"), Done)))))
  }

  /** `\s*# Upstream for [^\n]*\n\s*upstream [^}]+}\n`: an annotated upstream block. */
  function UpstreamAnchor(): Pat {
    Then(Rep(Space, 0), Then(Lit("# Upstream for "), Then(Rep(NoneOf("\n"), 0), Then(Lit("\n"),
    Then(Rep(Space, 0), Then(Lit("upstream "), Then(Rep(NoneOf("}"), 1), Then(Lit("}\n"), Done))))))))
  }

  /** `\n(\s*# HTTP server)`: the newline before the HTTP server section. */
  function HttpServerAnchor(): Pat {
    Then(Lit("\n"), Then(Rep(Space, 0), Then(Lit("# HTTP server"), Done)))
  }

  /** `# OpenAI API proxy\n\s*location /openai/ \{[^}]+\}`: the baseline rule of the HTTP server. */
  function HttpAnchor(): Pat {
    Then(Lit("# OpenAI API proxy\n"), Then(Rep(Space, 0), Then(Lit("location /openai/ {"),
    Then(Rep(NoneOf("}"), 1), Then(Lit("}"), Done)))))
  }

  /** `#\s*# OpenAI API proxy \(same as HTTP\)\n\s*#\s*location /openai/ \{[^}]+\}`: the
      commented-out copy of the baseline rule in the HTTPS section. */
  function HttpsAnchor(): Pat {
    Then(Lit("#"), Then(Rep(Space, 0), Then(Lit("# OpenAI API proxy (same as HTTP)\n"),
    Then(Rep(Space, 0), Then(Lit("#"), Then(Rep(Space, 0), Then(Lit("location /openai/ {"),
    Then(Rep(NoneOf("}"), 1), Then(Lit("}"), Done)))))))))
  }

  /** `[^}]+\}`: a block body and its closing brace. */
  function BodyTail(): Pat {
    Then(Rep(NoneOf("}"), 1), Then(Lit("}"), Done))
  }

  /** `\s*# [^\n]*\n\s*`: a comment line and the indentation of the next line. */
  function CommentLead(): Pat {
    Then(Rep(Space, 0), Then(Lit("# "), Then(Rep(NoneOf("\n"), 0), Then(Lit("\n"), Then(Rep(Space, 0), Done)))))
  }

  /** `\s*#\s*# [^\n]*\n\s*#\s*`: a commented-out comment line and the commented indentation. */
  function MirrorLead(): Pat {
    Then(Rep(Space, 0), Then(Lit("#"), Then(Rep(Space, 0), Then(Lit("# "), Then(Rep(NoneOf("\n"), 0),
    Then(Lit("\n"), Then(Rep(Space, 0), Then(Lit("#"), Then(Rep(Space, 0), Done)))))))))
  }

  /** `\s*# [^\n]*\n\s*location\s+<endpoint>\s*\{[^}]+\}`: an annotated live location block. */
  function LiveBlockPattern(endpoint: string): Pat {
    Append(CommentLead(), Append(HeaderPattern("location", endpoint), BodyTail()))
  }

  /** `\s*#\s*# [^\n]*\n(\s*#\s*location\s+<endpoint>\s*\{[^}]+\})`: its commented-out mirror. */
  function MirrorBlockPattern(endpoint: string): Pat {
    Append(MirrorLead(), Append(HeaderPattern("location", endpoint), BodyTail()))
  }

  /** `([^/;]+)` followed by `tail`. */
  function UpstreamThen(tail: Pat): Pat {
    Then(Mark, Then(Rep(NoneOf("/;"), 1), Then(Mark, tail)))
  }

  /** `[^}]*}`: the rest of the block up to its first `}`. */
  function ToBrace(): Pat {
    Then(Rep(NoneOf("}"), 0), Then(Lit("}"), Done))
  }

  /** `proxy_pass\s+[^:]+://` followed by `next`. */
  function ProxyPassThen(next: Pat): Pat {
    Then(Lit("proxy_pass"), Then(Rep(Space, 1), Then(Rep(NoneOf(":"), 1), Then(Lit("://"), next))))
  }

  /** `(\S+)\s*\{[^}]*` followed by `pp`. */
  function EndpointThen(pp: Pat): Pat {
    Then(Mark, Then(Rep(NonSpace, 1), Then(Mark, Then(Rep(Space, 0), Then(Lit("{"),
      Then(Rep(NoneOf("}"), 0), pp))))))
  }

  /** `# ([^\n]*)\n\s*location\s+` followed by `eg`. */
  function CommentThen(eg: Pat): Pat {
    Then(Lit("# "), Then(Mark, Then(Rep(NoneOf("\n"), 0), Then(Mark, Then(Lit("\n"), Then(Rep(Space, 0),
      Then(Lit("location"), Then(Rep(Space, 1), eg))))))))
  }

  /** `# ([^\n]*)\n\s*location\s+([^\s]+)\s*\{[^}]*proxy_pass\s+[^:]+://([^/;]+)[^}]*\}`:
      a location block as the listing reads it; groups: comment, endpoint, upstream. */
  function ListingPattern(): Pat {
    CommentThen(EndpointThen(ProxyPassThen(UpstreamThen(ToBrace()))))
  }

  /** `# Upstream for ([^\n]+)\n\s*upstream\s+<upstream>`: the annotation above an upstream. */
  function AnnotationPattern(upstream: string): Pat {
    AnnotationBefore(UpstreamLineBreak(upstream))
  }

  /** `# Upstream for ([^\n]+)` followed by `rest`. */
  function AnnotationBefore(rest: Pat): Pat {
    Then(Lit("# Upstream for "), Then(Mark, Then(Rep(NoneOf("\n"), 1), Then(Mark, rest))))
  }

  /** `upstream\s+<upstream>\s*\{\s*server\s+([^;]+);`: the first server of an upstream. */
  function ServerPattern(upstream: string): Pat {
    Then(Lit("upstream"), Then(Rep(Space, 1), Then(Lit(upstream), Then(Rep(Space, 0), Then(Lit("{"),
    Then(Rep(Space, 0), Then(Lit("server"), Then(Rep(Space, 1), Then(Mark, Then(Rep(NoneOf(";"), 1),
    Then(Mark, Then(Lit(";"), Done))))))))))))
  }

  /** The header pattern records no positions. */
  lemma HeaderPatternHasNoMarks(keyword: string, word: string)
    ensures MarkCount(HeaderPattern(keyword, word)) == 0
  {
    var p3 := Then(Rep(Space, 0), Then(Lit("{"), Done));
    assert MarkCount(p3) == 0;
    assert MarkCount(Then(Lit(word), p3)) == 0;
  }

  /** `\n\s*upstream\s+<upstream>` as the generated upstream block lays it out. */
  function UpstreamLineBreak(upstream: string): Pat {
    LineBreakHeader("upstream", upstream)
  }

  /** `\n\s*<keyword>\s+<word>`. */
  function LineBreakHeader(keyword: string, word: string): Pat {
    Then(Lit("\n"), Then(Rep(Space, 0), Then(Lit(keyword), Then(Rep(Space, 1), Then(Lit(word), Done)))))
  }

  /** A line break, `n` blanks, the keyword, one space and the word match the pattern. */
  lemma LineBreakHeaderMatch(s: string, j: nat, n: nat, keyword: string, word: string)
    requires keyword != [] && !IsSpace(keyword[0]) && word != [] && !IsSpace(word[0])
    requires OccursAt(s, "\n", j) && j + 1 + n <= |s| && AllIn(Space, s, j + 1, j + 1 + n)
    requires OccursAt(s, keyword, j + 1 + n) && OccursAt(s, " ", j + 1 + n + |keyword|)
    requires OccursAt(s, word, j + 2 + n + |keyword|)
    ensures MatchFrom(LineBreakHeader(keyword, word), s, j) == Some(Hit(j + 2 + n + |keyword| + |word|, []))
  {
    var k := j + 1 + n + |keyword|;
    var p8 := Then(Rep(Space, 1), Then(Lit(word), Done));
    SpaceThenWord(s, k, word);
    assert |"\n"| == 1;
    LeadThenKeyword("\n", s, j, n, keyword, p8, k + 1 + |word|);
  }

  /** `\s+<word>` matches one space and the word. */
  lemma SpaceThenWord(s: string, k: nat, word: string)
    requires word != [] && !IsSpace(word[0])
    requires OccursAt(s, " ", k) && OccursAt(s, word, k + 1)
    ensures MatchFrom(Then(Rep(Space, 1), Then(Lit(word), Done)), s, k) == Some(Hit(k + 1 + |word|, []))
  {
    OccursAtChar(s, " ", k, 0);
    MatchBlanksThenLit(1, word, Done, s, k, 1, k + 1 + |word|);
  }

  /** `<lead>\s*<keyword>` followed by a match of `rest`. */
  lemma LeadThenKeyword(lead: string, s: string, j: nat, n: nat, keyword: string, rest: Pat, e: nat)
    requires keyword != [] && !IsSpace(keyword[0])
    requires OccursAt(s, lead, j) && j + |lead| + n <= |s| && AllIn(Space, s, j + |lead|, j + |lead| + n)
    requires OccursAt(s, keyword, j + |lead| + n)
    requires MatchFrom(rest, s, j + |lead| + n + |keyword|) == Some(Hit(e, []))
    ensures MatchFrom(Then(Lit(lead), Then(Rep(Space, 0), Then(Lit(keyword), rest))), s, j) == Some(Hit(e, []))
  {
    var i := j + |lead|;
    var next := Then(Rep(Space, 0), Then(Lit(keyword), rest));
    MatchBlanksThenLit(0, keyword, rest, s, i, n, e);
    LitThen(lead, next, s, j, e);
  }

  lemma UpstreamLineBreakMatch(s: string, j: nat, upstream: string)
    requires upstream != [] && !IsSpace(upstream[0])
    requires OccursAt(s, "\n    upstream ", j) && OccursAt(s, upstream, j + 14)
    ensures MatchFrom(UpstreamLineBreak(upstream), s, j) == Some(Hit(j + 14 + |upstream|, []))
  {
    UpstreamLinePieces(s, j);
    LineBreakHeaderMatch(s, j, 4, "upstream", upstream);
  }

  /** The pieces of the line break before `upstream <name>` in the generated block. */
  lemma UpstreamLinePieces(s: string, j: nat)
    requires OccursAt(s, "\n    upstream ", j)
    ensures OccursAt(s, "\n", j) && j + 5 <= |s| && AllIn(Space, s, j + 1, j + 5)
    ensures OccursAt(s, "upstream", j + 5) && OccursAt(s, " ", j + 13)
    ensures |"upstream"| == 8 && "upstream"[0] == 'u'
  {
    OccursSplit(s, "\n    ", "upstream ", j);
    OccursSplit(s, "\n", "    ", j);
    OccursSplit(s, "upstream", " ", j + 5);
    forall k | j + 1 <= k < j + 5 ensures IsSpace(s[k]) {
      OccursAtChar(s, "    ", j + 1, k - j - 1);
    }
  }

  /** The run of non-newline characters from `i` is exactly the URL. */
  lemma AnnotationRun(s: string, i: nat, url: string)
    requires NoNewline(url)
    requires OccursAt(s, url, i) && i + |url| < |s| && s[i + |url|] == '\n'
    ensures Run(NoneOf("\n"), s, i) == |url|
  {
    forall k | i <= k < i + |url| ensures s[k] != '\n' {
      OccursAtChar(s, url, i, k - i);
    }
    RunExact(NoneOf("\n"), s, i, i + |url|);
  }

  /** A literal, then a group around a line of text, then `rest`. */
  lemma LitLineGroupMatch(w: string, s: string, i: nat, n: nat, rest: Pat, e: nat)
    requires OccursAt(s, w, i) && 0 < n && Run(NoneOf("\n"), s, i + |w|) == n && i + |w| + n <= |s|
    requires MatchFrom(rest, s, i + |w| + n) == Some(Hit(e, []))
    ensures MatchFrom(Then(Lit(w), Then(Mark, Then(Rep(NoneOf("\n"), 1), Then(Mark, rest)))), s, i)
            == Some(Hit(e, [i + |w|, i + |w| + n]))
  {
    MatchGroupRun(NoneOf("\n"), 1, rest, s, i + |w|, n);
    assert [i + |w|, i + |w| + n] + [] == [i + |w|, i + |w| + n];
    MatchLitStep(w, Then(Mark, Then(Rep(NoneOf("\n"), 1), Then(Mark, rest))), s, i);
  }

  /** Where an annotation line ending at `j` is followed by a match of `rest`, the annotation
      part of the lookup matches there and its group is the annotated URL. */
  lemma AnnotationMatch(s: string, i: nat, url: string, rest: Pat, j: nat, e: nat)
    requires url != [] && NoNewline(url) && j == i + 15 + |url|
    requires OccursAt(s, "# Upstream for ", i) && OccursAt(s, url, i + 15)
    requires j < |s| && s[j] == '\n'
    requires MatchFrom(rest, s, j) == Some(Hit(e, []))
    ensures MatchFrom(AnnotationBefore(rest), s, i) == Some(Hit(e, [i + 15, j]))
  {
    var w := "# Upstream for ";
    assert |w| == 15;
    AnnotationRun(s, i + 15, url);
    LitLineGroupMatch(w, s, i, |url|, rest, e);
  }

  /** Four spaces of indentation hold no `#`. */
  lemma IndentHasNoHash(s: string)
    requires OccursAt(s, "    ", 0)
    ensures forall q | 0 <= q < 4 :: s[q] != '#'
  {
    forall q | 0 <= q < 4 ensures s[q] != '#' {
      OccursAtChar(s, "    ", 0, q);
    }
  }

  /** Text that starts with an annotation line indented by four spaces, followed by a match of
      `rest`: the first annotation lookup finds it, and its group spans the URL. */
  lemma AnnotationFirst(s: string, url: string, rest: Pat, e: nat)
    requires url != [] && NoNewline(url)
    requires OccursAt(s, "    ", 0) && OccursAt(s, "# Upstream for ", 4) && OccursAt(s, url, 19)
    requires 19 + |url| < |s| && s[19 + |url|] == '\n'
    requires MatchFrom(rest, s, 19 + |url|) == Some(Hit(e, []))
    ensures SearchFrom(AnnotationBefore(rest), s, 0) == Some(Found(4, e, [19, 19 + |url|]))
  {
    var w := "# Upstream for ";
    var next := Then(Mark, Then(Rep(NoneOf("\n"), 1), Then(Mark, rest)));
    assert AnnotationBefore(rest) == Then(Lit(w), next);
    AnnotationMatch(s, 4, url, rest, 19 + |url|, e);
    assert w[0] == '#';
    IndentHasNoHash(s);
    LitLedFirst(w, next, s, 4, Hit(e, [19, 19 + |url|]));
  }

  /** Text that starts with an annotated upstream header indented by four spaces: the first
      annotation lookup finds it, and its group spans the URL. */
  lemma AnnotationFound(s: string, url: string, upstream: string)
    requires url != [] && NoNewline(url) && upstream != [] && !IsSpace(upstream[0])
    requires OccursAt(s, "    ", 0) && OccursAt(s, "# Upstream for ", 4) && OccursAt(s, url, 19)
    requires OccursAt(s, "\n    upstream ", 19 + |url|) && OccursAt(s, upstream, 19 + |url| + 14)
    ensures SearchFrom(AnnotationPattern(upstream), s, 0)
            == Some(Found(4, 19 + |url| + 14 + |upstream|, [19, 19 + |url|]))
  {
    OccursAtChar(s, "\n    upstream ", 19 + |url|, 0);
    UpstreamLineBreakMatch(s, 19 + |url|, upstream);
    AnnotationFirst(s, url, UpstreamLineBreak(upstream), 19 + |url| + 14 + |upstream|);
    assert AnnotationPattern(upstream) == AnnotationBefore(UpstreamLineBreak(upstream));
  }

  /** `s[i..k + 1]` is `<keyword>`, at least one blank, `<word>`, any blanks, then `{` at `k`;
      `m` is where `<word>` starts. */
  ghost predicate HeaderAt(s: string, keyword: string, word: string, i: nat, m: nat, k: nat) {
    && i + |keyword| < m && m + |word| <= k < |s|
    && s[i..i + |keyword|] == keyword && AllIn(Space, s, i + |keyword|, m)
    && s[m..m + |word|] == word && AllIn(Space, s, m + |word|, k) && s[k] == '{'
  }

  ghost predicate HasHeader(s: string, keyword: string, word: string) {
    exists i: nat, m: nat, k: nat :: HeaderAt(s, keyword, word, i, m, k)
  }

  lemma HeaderAcceptsAt(s: string, keyword: string, word: string, i: nat, j: nat)
    returns (m: nat, k: nat)
    requires Accepts(HeaderPattern(keyword, word), s, i, j, [])
    ensures HeaderAt(s, keyword, word, i, m, k) && j == k + 1
  {
    var p2 := Then(Lit(word), Then(Rep(Space, 0), Then(Lit("{"), Done)));
    assert Accepts(Then(Rep(Space, 1), p2), s, i + |keyword|, j, []);
    m :| i + |keyword| + 1 <= m <= j && AllIn(Space, s, i + |keyword|, m) && Accepts(p2, s, m, j, []);
    k := WordThenBrace(s, word, m, j);
  }

  /** A declarative match of `<word>\s*\{` from `m` to `j`: the word, blanks, then `{` at `k`. */
  lemma WordThenBrace(s: string, word: string, m: nat, j: nat) returns (k: nat)
    requires Accepts(Then(Lit(word), Then(Rep(Space, 0), Then(Lit("{"), Done))), s, m, j, [])
    ensures m + |word| <= k < |s| && j == k + 1
    ensures s[m..m + |word|] == word && AllIn(Space, s, m + |word|, k) && s[k] == '{'
  {
    var p4 := Then(Lit("{"), Done);
    assert Accepts(Then(Rep(Space, 0), p4), s, m + |word|, j, []);
    k :| m + |word| <= k <= j && AllIn(Space, s, m + |word|, k) && Accepts(p4, s, k, j, []);
    OccursAtChar(s, "{", k, 0);
  }

  lemma HeaderAtAccepts(s: string, keyword: string, word: string, i: nat, m: nat, k: nat)
    requires HeaderAt(s, keyword, word, i, m, k)
    ensures Accepts(HeaderPattern(keyword, word), s, i, k + 1, [])
  {
    var p2 := Then(Lit(word), Then(Rep(Space, 0), Then(Lit("{"), Done)));
    WordThenBraceAccepts(s, word, m, k);
    assert Accepts(Then(Rep(Space, 1), p2), s, i + |keyword|, k + 1, []);
  }

  /** The converse of `WordThenBrace`. */
  lemma WordThenBraceAccepts(s: string, word: string, m: nat, k: nat)
    requires m + |word| <= k < |s| && s[m..m + |word|] == word
    requires AllIn(Space, s, m + |word|, k) && s[k] == '{'
    ensures Accepts(Then(Lit(word), Then(Rep(Space, 0), Then(Lit("{"), Done))), s, m, k + 1, [])
  {
    var p4 := Then(Lit("{"), Done);
    assert s[k..k + 1] == "{";
    assert Accepts(p4, s, k, k + 1, []);
    assert Accepts(Then(Rep(Space, 0), p4), s, m + |word|, k + 1, []);
  }

  /** The header pattern occurs exactly when the header is in the text. */
  lemma HeaderOccursIff(s: string, keyword: string, word: string)
    ensures Occurs(HeaderPattern(keyword, word), s) <==> HasHeader(s, keyword, word)
  {
    if Occurs(HeaderPattern(keyword, word), s) {
      var i, j :| 0 <= i <= j <= |s| && Accepts(HeaderPattern(keyword, word), s, i, j, []);
      var m, k := HeaderAcceptsAt(s, keyword, word, i, j);
    }
    if HasHeader(s, keyword, word) {
      var i: nat, m: nat, k: nat :| HeaderAt(s, keyword, word, i, m, k);
      HeaderAtAccepts(s, keyword, word, i, m, k);
    }
  }

  /** `re.search(rf'<keyword>\s+{word}\s*{{', s)` succeeds (lines 116-117 and 129-130). */
  function HeaderPresent(s: string, keyword: string, word: string): (b: bool)
    ensures b <==> HasHeader(s, keyword, word)
  {
    HeaderPatternHasNoMarks(keyword, word);
    SearchIffOccurs(HeaderPattern(keyword, word), s);
    HeaderOccursIff(s, keyword, word);
    SearchFrom(HeaderPattern(keyword, word), s, 0).Some?
  }

  /** Every header occurrence contains its word verbatim. */
  lemma HeaderContainsWord(s: string, keyword: string, word: string)
    requires HasHeader(s, keyword, word)
    ensures Contains(s, word)
  {
    var i: nat, m: nat, k: nat :| HeaderAt(s, keyword, word, i, m, k);
    assert OccursAt(s, word, m);
  }

  /** The header `<keyword> <word> {` as the editor writes it. */
  function HeaderText(keyword: string, word: string): string {
    keyword + " " + word + " {"
  }

  /** Text holding a written header has that header. */
  lemma HeaderTextIsHeader(a: string, keyword: string, word: string, b: string)
    ensures HasHeader(a + HeaderText(keyword, word) + b, keyword, word)
  {
    var s := a + HeaderText(keyword, word) + b;
    var i := |a|;
    var m := i + |keyword| + 1;
    var k := m + |word| + 1;
    assert s[i..i + |keyword|] == keyword;
    assert s[i + |keyword|] == ' ';
    assert s[m..m + |word|] == word;
    assert s[m + |word|] == ' ';
    assert s[k] == '{';
    assert HeaderAt(s, keyword, word, i, m, k);
  }

  /** An occurrence of a written header is a header. */
  lemma HeaderTextOccurs(s: string, keyword: string, word: string, i: nat)
    requires OccursAt(s, HeaderText(keyword, word), i)
    ensures HasHeader(s, keyword, word)
  {
    HeaderTextAt(s, keyword, word, i);
  }

  /** Where the keyword, the word and the brace of a written header stand. */
  lemma HeaderTextAt(s: string, keyword: string, word: string, i: nat)
    requires OccursAt(s, HeaderText(keyword, word), i)
    ensures HeaderAt(s, keyword, word, i, i + |keyword| + 1, i + |keyword| + 1 + |word| + 1)
  {
    var m := i + |keyword| + 1;
    HeaderTextParts(s, keyword, word, i, m);
    SpaceAt(s, i + |keyword|);
    SpaceAt(s, m + |word|);
  }

  /** The characters of a written header, piece by piece. */
  lemma HeaderTextParts(s: string, keyword: string, word: string, i: nat, m: nat)
    requires OccursAt(s, HeaderText(keyword, word), i) && m == i + |keyword| + 1
    ensures OccursAt(s, keyword, i) && s[i + |keyword|] == ' '
    ensures OccursAt(s, word, m) && s[m + |word|] == ' ' && m + |word| + 1 < |s| && s[m + |word| + 1] == '{'
  {
    OccursSplit(s, keyword + " " + word, " {", i);
    OccursSplit(s, keyword + " ", word, i);
    OccursSplit(s, keyword, " ", i);
    OccursAtChar(s, " ", i + |keyword|, 0);
    OccursAtChar(s, " {", m + |word|, 0);
    OccursAtChar(s, " {", m + |word|, 1);
  }

  /** A single space is a run of blanks. */
  lemma SpaceAt(s: string, q: nat)
    requires q < |s| && s[q] == ' '
    ensures AllIn(Space, s, q, q + 1)
  {
  }

  /** A written header behind a prefix and an indent is a header. */
  lemma HeaderBehind(s: string, prefix: string, indent: string, keyword: string, word: string, i: nat)
    requires OccursAt(s, prefix + (indent + HeaderText(keyword, word)), i)
    ensures HasHeader(s, keyword, word)
  {
    OccursSplit(s, prefix, indent + HeaderText(keyword, word), i);
    OccursSplit(s, indent, HeaderText(keyword, word), i + |prefix|);
    HeaderTextOccurs(s, keyword, word, i + |prefix| + |indent|);
  }

  /** A header line built from single-line parts is a single line. */
  lemma HeaderLineSingle(indent: string, keyword: string, word: string)
    requires NoNewline(indent) && NoNewline(keyword) && NoNewline(word)
    ensures NoNewline(indent + HeaderText(keyword, word))
  {
    assert NoNewline(" ") && NoNewline(" {");
  }

  /** A line holding a written header, joined with other lines, leaves the header in the text. */
  lemma HeaderLineInJoin(lines: seq<string>, k: nat, indent: string, keyword: string, word: string)
    requires 0 < k < |lines| - 1 && lines[k] == indent + HeaderText(keyword, word)
    ensures HasHeader(Join(lines), keyword, word)
  {
    var s := Join(lines);
    var i := LineOccurs(lines, k);
    OccursSplit(s, indent, HeaderText(keyword, word), i);
    HeaderTextOccurs(s, keyword, word, i + |indent|);
  }

  /** ... and in the text turned into comments, when that line holds no newline. */
  lemma HeaderLineInCommented(lines: seq<string>, k: nat, indent: string, keyword: string, word: string)
    requires 0 < k < |lines| - 1 && lines[k] == indent + HeaderText(keyword, word) && NoNewline(lines[k])
    ensures HasHeader(Commented(Join(lines)), keyword, word)
  {
    CommentedLineAt(lines, k);
    HeaderBehind(Commented(Join(lines)), "    #", indent, keyword, word, |Commented(Join(lines[..k]))| + 1);
  }

  /** A header occurrence only depends on its own span of the text. */
  lemma HeaderAtMoves(s: string, t: string, keyword: string, word: string, i: nat, m: nat, k: nat, i2: nat)
    requires HeaderAt(s, keyword, word, i, m, k)
    requires i2 + (k + 1 - i) <= |t| && t[i2..i2 + (k + 1 - i)] == s[i..k + 1]
    ensures HeaderAt(t, keyword, word, i2, m - i + i2, k - i + i2)
  {
    var n := k + 1 - i;
    var m2 := m - i + i2;
    forall q | i2 <= q < i2 + n ensures t[q] == s[q - i2 + i] {
      assert t[q] == t[i2..i2 + n][q - i2];
    }
    assert t[i2..i2 + |keyword|] == s[i..i + |keyword|];
    assert t[m2..m2 + |word|] == s[m..m + |word|];
  }

  /** No character of a header occurrence is `}` when neither the keyword nor the word has one. */
  lemma HeaderHasNoCloseBrace(s: string, keyword: string, word: string, i: nat, m: nat, k: nat, q: nat)
    requires HeaderAt(s, keyword, word, i, m, k) && i <= q <= k
    requires '}' !in keyword && '}' !in word
    ensures s[q] != '}'
  {
    if q < i + |keyword| {
      assert s[q] == s[i..i + |keyword|][q - i];
    } else if q < m {
      assert IsSpace(s[q]);
    } else if q < m + |word| {
      assert s[q] == s[m..m + |word|][q - m];
    } else if q < k {
      assert IsSpace(s[q]);
    }
  }

  /** Inserting text right after a `}` (or at the very start) keeps every header in place. */
  lemma HeaderSurvivesInsert(s: string, keyword: string, word: string, q: nat, x: string)
    requires HasHeader(s, keyword, word) && q <= |s| && (q == 0 || s[q - 1] == '}')
    requires '}' !in keyword && '}' !in word
    ensures HasHeader(s[..q] + x + s[q..], keyword, word)
  {
    var t := s[..q] + x + s[q..];
    var i: nat, m: nat, k: nat :| HeaderAt(s, keyword, word, i, m, k);
    HeaderBraceFree(s, keyword, word, i, m, k);
    if k < q {
      HeaderBeforeInsert(s, keyword, word, i, m, k, q, x);
    } else if q <= i {
      HeaderAfterInsert(s, keyword, word, i, m, k, q, x);
    }
  }

  /** A header that ends before the insertion point stays where it is. */
  lemma HeaderBeforeInsert(s: string, keyword: string, word: string, i: nat, m: nat, k: nat, q: nat, x: string)
    requires HeaderAt(s, keyword, word, i, m, k) && k < q <= |s|
    ensures HeaderAt(s[..q] + x + s[q..], keyword, word, i, m, k)
  {
    SliceBeforeInsert(s, x, q, i, k + 1);
    HeaderAtMoves(s, s[..q] + x + s[q..], keyword, word, i, m, k, i);
  }

  /** A header that starts after the insertion point moves by the inserted length. */
  lemma HeaderAfterInsert(s: string, keyword: string, word: string, i: nat, m: nat, k: nat, q: nat, x: string)
    requires HeaderAt(s, keyword, word, i, m, k) && q <= i
    ensures HeaderAt(s[..q] + x + s[q..], keyword, word, i + |x|, m + |x|, k + |x|)
  {
    SliceAfterInsert(s, x, q, i, k + 1);
    HeaderAtMoves(s, s[..q] + x + s[q..], keyword, word, i, m, k, i + |x|);
  }

  /** Nothing before the closing `{` of such a header is `}`. */
  lemma HeaderBraceFree(s: string, keyword: string, word: string, i: nat, m: nat, k: nat)
    requires HeaderAt(s, keyword, word, i, m, k)
    requires '}' !in keyword && '}' !in word
    ensures forall p | i <= p <= k :: s[p] != '}'
  {
    forall p | i <= p <= k ensures s[p] != '}' {
      HeaderHasNoCloseBrace(s, keyword, word, i, m, k, p);
    }
  }

  /** Text before an insertion point stays where it was. */
  lemma SliceBeforeInsert(s: string, x: string, q: nat, a: nat, b: nat)
    requires a <= b <= q <= |s|
    ensures (s[..q] + x + s[q..])[a..b] == s[a..b]
  {
  }

  /** Text after an insertion point moves by the length of the inserted text. */
  lemma SliceAfterInsert(s: string, x: string, q: nat, a: nat, b: nat)
    requires q <= a <= b <= |s|
    ensures a + |x| <= b + |x| <= |s[..q] + x + s[q..]|
    ensures (s[..q] + x + s[q..])[a + |x|..b + |x|] == s[a..b]
  {
    var t := s[..q] + x + s[q..];
    assert forall c | a <= c < b :: t[c + |x|] == s[c];
  }

  /** A slice of inserted text is found, shifted, in the result. */
  lemma InsertedSlice(s: string, q: nat, x: string, i: nat, j: nat)
    requires q <= |s| && i <= j <= |x|
    ensures q + j <= |s[..q] + x + s[q..]|
    ensures (s[..q] + x + s[q..])[q + i..q + j] == x[i..j]
  {
    var t := s[..q] + x + s[q..];
    assert forall c | i <= c < j :: t[q + c] == x[c];
  }

  /** A header of `x` is still one once `x` is put on lines of its own. */
  lemma HeaderOnOwnLines(x: string, keyword: string, word: string)
    requires HasHeader(x, keyword, word)
    ensures HasHeader("\n" + x + "\n", keyword, word)
  {
    var s := "\n\n";
    assert s[..1] + x + s[1..] == "\n" + x + "\n";
    HeaderInserted(s, 1, x, keyword, word);
  }

  /** Text put into other text brings its headers along. */
  lemma HeaderInserted(s: string, q: nat, x: string, keyword: string, word: string)
    requires q <= |s| && HasHeader(x, keyword, word)
    ensures HasHeader(s[..q] + x + s[q..], keyword, word)
  {
    var t := s[..q] + x + s[q..];
    var i: nat, m: nat, k: nat :| HeaderAt(x, keyword, word, i, m, k);
    InsertedSlice(s, q, x, i, k + 1);
    HeaderAtMoves(x, t, keyword, word, i, m, k, q + i);
  }

  /** A match of a pattern with a header in the middle contains that header. */
  lemma HeaderInsideHasHeader(lead: Pat, keyword: string, word: string, tail: Pat,
                              s: string, i: nat, j: nat, ms: seq<nat>)
    requires MarkCount(lead) == 0
    requires Accepts(Append(lead, Append(HeaderPattern(keyword, word), tail)), s, i, j, ms)
    ensures HasHeader(s, keyword, word)
  {
    var m := AppendElim(lead, Append(HeaderPattern(keyword, word), tail), s, i, j, ms);
    assert ms[0..] == ms;
    var m2 := AppendElim(HeaderPattern(keyword, word), tail, s, m, j, ms);
    HeaderPatternHasNoMarks(keyword, word);
    assert ms[..0] == [];
    var a, b := HeaderAcceptsAt(s, keyword, word, m, m2);
  }

  /** Every match of the live-block pattern contains the header of its endpoint. */
  lemma LiveBlockHasHeader(s: string, endpoint: string, i: nat, j: nat, ms: seq<nat>)
    requires Accepts(LiveBlockPattern(endpoint), s, i, j, ms)
    ensures HasHeader(s, "location", endpoint)
  {
    assert MarkCount(CommentLead()) == 0;
    HeaderInsideHasHeader(CommentLead(), "location", endpoint, BodyTail(), s, i, j, ms);
  }

  /** Every match of the mirror-block pattern contains the header of its endpoint. */
  lemma MirrorBlockHasHeader(s: string, endpoint: string, i: nat, j: nat, ms: seq<nat>)
    requires Accepts(MirrorBlockPattern(endpoint), s, i, j, ms)
    ensures HasHeader(s, "location", endpoint)
  {
    assert MarkCount(MirrorLead()) == 0;
    HeaderInsideHasHeader(MirrorLead(), "location", endpoint, BodyTail(), s, i, j, ms);
  }

  /** Both removal patterns open with optional white space and a literal starting with `#`. */
  lemma RemovalPatternsLead(e: string)
    ensures LiveBlockPattern(e)
            == Then(Rep(Space, 0), Then(Lit("# "), Append(CommentLead().tail.tail, Append(HeaderPattern("location", e), BodyTail()))))
    ensures MirrorBlockPattern(e)
            == Then(Rep(Space, 0), Then(Lit("#"), Append(MirrorLead().tail.tail, Append(HeaderPattern("location", e), BodyTail()))))
  {
    var x := Append(HeaderPattern("location", e), BodyTail());
    assert Append(CommentLead(), x) == Then(Rep(Space, 0), Append(CommentLead().tail, x));
    assert Append(CommentLead().tail, x) == Then(Lit("# "), Append(CommentLead().tail.tail, x));
    assert Append(MirrorLead(), x) == Then(Rep(Space, 0), Append(MirrorLead().tail, x));
    assert Append(MirrorLead().tail, x) == Then(Lit("#"), Append(MirrorLead().tail.tail, x));
  }

  /** A pattern opening like the removal patterns only matches a text containing `#`. */
  lemma HashLedNeedsHash(w: string, rest: Pat, s: string, i: nat, j: nat, ms: seq<nat>)
    requires |w| > 0 && w[0] == '#'
    requires Accepts(Then(Rep(Space, 0), Then(Lit(w), rest)), s, i, j, ms)
    ensures '#' in s
  {
    var m :| i <= m <= j && AllIn(Space, s, i, m) && Accepts(Then(Lit(w), rest), s, m, j, ms);
    OccursAtChar(s, w, m, 0);
  }
}
