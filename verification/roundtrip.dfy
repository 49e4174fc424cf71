/**
  A location block as `_generate_location_block` writes it (llm_proxy_cli/nginx_manager.py,
  lines 60-110), read back by the listing pattern of `list_proxies` (lines 212-213 and
  240-244): the first match spans the block from its comment to its closing `}`, and its
  groups are the comment, the endpoint and the upstream name the block was generated with.
*/
module RoundTrip {
  import opened Regex
  import opened Text
  import opened Patterns
  import opened Blocks
  import opened Listing
  import opened Readback

  /** What the listing pattern needs of the values a block is generated from: the block
      exists; the comment is one line; the endpoint is a non-empty word without `}`; the
      scheme is a non-empty word without `:` or `}`; the upstream name is non-empty and holds
      none of `/`, `;`, `:`, `}`; the URL path has no `}` and the host no `:` or `}`. */
  predicate Readable(e: string, u: Url, upstream: string, name: Option<string>) {
    && (u.scheme == "https" ==> u.hostname.Some?)
    && NoNewline(CommentText(u, name))
    && e != [] && (forall k | 0 <= k < |e| :: !IsSpace(e[k])) && '}' !in e
    && u.scheme != [] && (forall k | 0 <= k < |u.scheme| :: !IsSpace(u.scheme[k]) && u.scheme[k] != ':')
    && '}' !in u.scheme
    && upstream != [] && (forall k | 0 <= k < |upstream| :: upstream[k] !in "/;:}")
    && '}' !in u.path && ':' !in HostText(u.hostname) && '}' !in HostText(u.hostname)
  }

  // Text facts.

  /** An occurrence stays where it is when text is appended. */
  lemma OccursExtend(a: string, b: string, t: string, i: nat)
    requires OccursAt(a, t, i)
    ensures OccursAt(a + b, t, i)
  {
    assert (a + b)[i..i + |t|] == a[i..i + |t|];
  }

  /** An occurrence inside an occurrence. */
  lemma OccursWithin(s: string, x: string, y: string, i: nat, j: nat)
    requires OccursAt(s, x, i) && OccursAt(x, y, j)
    ensures OccursAt(s, y, i + j)
  {
    forall k | 0 <= k < |y| ensures s[i + j + k] == y[k] {
      assert s[i..i + |x|][j + k] == x[j + k];
      assert x[j..j + |y|][k] == y[k];
    }
    assert s[i + j..i + j + |y|] == y;
  }

  /** The characters of an occurrence of `t` are in `cls` when those of `t` are. */
  lemma AllInOccurrence(cls: CharClass, s: string, t: string, i: nat)
    requires OccursAt(s, t, i) && forall k | 0 <= k < |t| :: InClass(t[k], cls)
    ensures AllIn(cls, s, i, i + |t|)
  {
    forall k | i <= k < i + |t| ensures InClass(s[k], cls) {
      OccursAtChar(s, t, i, k - i);
    }
  }

  /** A text without `ch` has only characters of `NoneOf([ch])`. */
  lemma AvoidsClass(t: string, ch: char)
    requires ch !in t
    ensures forall k | 0 <= k < |t| :: InClass(t[k], NoneOf([ch]))
  {
    forall k | 0 <= k < |t| ensures InClass(t[k], NoneOf([ch])) {
      assert t[k] in t;
    }
  }

  /** Every line of `lines` avoids `ch`. */
  predicate LinesAvoid(lines: seq<string>, ch: char) {
    forall k | 0 <= k < |lines| :: ch !in lines[k]
  }

  lemma LinesAvoidConcat(a: seq<string>, b: seq<string>, ch: char)
    requires LinesAvoid(a, ch) && LinesAvoid(b, ch)
    ensures LinesAvoid(a + b, ch)
  {
    forall k | 0 <= k < |a + b| ensures ch !in (a + b)[k] {
      if k >= |a| {
        assert (a + b)[k] == b[k - |a|];
      }
    }
  }

  /** Joining lines that avoid a character other than the newline avoids it too. */
  lemma {:induction false} JoinAvoids(lines: seq<string>, ch: char)
    requires ch != '\n' && LinesAvoid(lines, ch)
    ensures ch !in Join(lines)
    decreases |lines|
  {
    if |lines| > 1 {
      assert LinesAvoid(lines[1..], ch) by {
        forall k | 0 <= k < |lines| - 1 ensures ch !in lines[1..][k] {
          assert lines[1..][k] == lines[k + 1];
        }
      }
      JoinAvoids(lines[1..], ch);
    }
  }

  /** `re.escape` adds nothing but backslashes. */
  lemma {:induction false} EscapeAvoids(s: string, ch: char)
    requires ch !in s && ch != '\\'
    ensures ch !in RegexEscape(s)
    decreases |s|
  {
    if s != [] {
      assert ch !in s[1..];
      EscapeAvoids(s[1..], ch);
    }
  }

  /** `rstrip` keeps a prefix. */
  lemma RStripAvoids(s: string, c: char, ch: char)
    requires ch !in s
    ensures ch !in RStrip(s, c)
  {
    var r := RStrip(s, c);
    forall k | 0 <= k < |r| ensures r[k] != ch {
      assert r[k] == s[..|r|][k] == s[k];
    }
  }

  // The generated block.

  lemma JoinThree(a: string, b: string, c: string)
    ensures Join([a, b, c]) == a + "\n" + b + "\n" + c
  {
    assert [a, b, c][1..] == [b, c];
    assert [b, c][1..] == [c];
    assert Join([c]) == c;
    assert Join([b, c]) == b + "\n" + c;
  }

  /** The first three lines of a block: its blank line, its comment and its `location` header,
      up to the end of the endpoint's ` {`. */
  function Front(cm: string, e: string): string {
    "        \n        " + (cm + ("\n        location " + (e + " {")))
  }

  lemma FrontText(cm: string, e: string)
    ensures "        " + "\n" + ("        " + cm) + "\n" + ("        " + HeaderText("location", e)) == Front(cm, e)
  {
  }

  /** The `proxy_pass` line, piece by piece. */
  lemma ProxyPassText(scheme: string, upstream: string)
    ensures "            proxy_pass " + scheme + "://" + upstream + ";"
            == "            " + ("proxy_pass " + (scheme + ("://" + (upstream + ";"))))
  {
  }

  /** Where the pieces of the front stand. */
  lemma FrontLength(cm: string, e: string)
    ensures |Front(cm, e)| == 37 + |cm| + |e|
  {
    FrontOccurs(cm, e);
  }

  lemma FrontOccurs(cm: string, e: string)
    ensures var f := Front(cm, e);
            && |f| == 37 + |cm| + |e|
            && OccursAt(f, "        \n        ", 0) && OccursAt(f, cm, 17)
            && OccursAt(f, "\n        location ", 17 + |cm|) && OccursAt(f, e, 35 + |cm|)
            && OccursAt(f, " {", 35 + |cm| + |e|)
  {
    var p0, p2 := "        \n        ", "\n        location ";
    FrontPieces(p0, cm, p2, e + " {");
    OccursPrefix(e, " {");
    BehindPieces(p0, cm, p2, e + " {", e, 0, |p0| + |cm| + |p2|);
    OccursSuffix(e, " {");
    BehindPieces(p0, cm, p2, e + " {", " {", |e|, |p0| + |cm| + |p2| + |e|);
  }

  /** The first three lines of a block. */
  predicate FrontLines(head: seq<string>, cm: string, e: string) {
    && |head| == 7 && head[0] == "        " && head[1] == "        " + cm
    && head[2] == "        " + HeaderText("location", e)
  }

  lemma JoinFrontLines(head: seq<string>, cm: string, e: string)
    requires FrontLines(head, cm, e)
    ensures Join(head[..3]) == Front(cm, e)
  {
    assert head[..3] == [head[0], head[1], head[2]];
    JoinThree(head[0], head[1], head[2]);
    FrontText(cm, e);
  }

  lemma MiddleAssoc(f: string, j: string)
    ensures f + "\n" + j + "\n" + "        }" == f + ("\n" + j + "\n" + "        ") + "}"
  {
  }

  /** Lines that start with a front and end with `        }`, split at both. */
  lemma JoinAroundMiddle(head: seq<string>, ssl: seq<string>, body: seq<string>, tail: seq<string>, cm: string, e: string)
    requires FrontLines(head, cm, e) && tail == body + ["        }"]
    ensures Join(head + ssl + tail)
            == Front(cm, e) + ("\n" + Join(head[3..] + ssl + body) + "\n" + "        ") + "}"
  {
    var mid := head[3..] + ssl + body;
    assert head + ssl + tail == head[..3] + mid + ["        }"];
    JoinAppend(head[..3] + mid, ["        }"]);
    JoinAppend(head[..3], mid);
    JoinFrontLines(head, cm, e);
    MiddleAssoc(Front(cm, e), Join(mid));
  }

  /** Lines that start with a front, split around their seventh line. */
  lemma JoinAroundSeventh(head: seq<string>, rest: seq<string>, cm: string, e: string) returns (pre: string)
    requires FrontLines(head, cm, e) && |rest| >= 1
    ensures |pre| >= |Front(cm, e)| + 1
    ensures Join(head + rest) == pre + head[6] + ("\n" + Join(rest))
  {
    var lines := head + rest;
    JoinAround(lines, 6);
    pre := Join(lines[..6]) + "\n";
    assert lines[7..] == rest;
    assert lines[..6] == head[..3] + head[3..6];
    JoinAppend(head[..3], head[3..6]);
    JoinFrontLines(head, cm, e);
    var j := Join(rest);
    assert pre + head[6] + "\n" + j == pre + head[6] + ("\n" + j);
  }

  lemma LinesAssoc(a: seq<string>, b: seq<string>, c: seq<string>)
    ensures a + b + c == a + (b + c)
  {
  }

  /** A block is its front, the lines between, and its closing `}`. */
  lemma BlockAroundMiddle(e: string, u: Url, upstream: string, name: Option<string>)
    requires u.scheme == "https" ==> u.hostname.Some?
    ensures LocationBlock(e, u, upstream, name)
            == Some(Front(CommentText(u, name), e)
                    + ("\n" + Join(LocationHead(e, u, upstream, name)[3..] + SslLines(u) + TailBody(u))
                       + "\n" + "        ") + "}")
  {
    JoinAroundMiddle(LocationHead(e, u, upstream, name), SslLines(u), TailBody(u), LocationTail(u), CommentText(u, name), e);
  }

  /** A block is what comes before its `proxy_pass` line, that line, and the lines after it. */
  lemma BlockAroundProxyPass(e: string, u: Url, upstream: string, name: Option<string>) returns (pre: string)
    requires u.scheme == "https" ==> u.hostname.Some?
    ensures |pre| >= |Front(CommentText(u, name), e)| + 1
    ensures LocationBlock(e, u, upstream, name)
            == Some(pre + LocationHead(e, u, upstream, name)[6] + ("\n" + Join(SslLines(u) + LocationTail(u))))
  {
    LinesAssoc(LocationHead(e, u, upstream, name), SslLines(u), LocationTail(u));
    pre := JoinAroundSeventh(LocationHead(e, u, upstream, name), SslLines(u) + LocationTail(u), CommentText(u, name), e);
  }

  /** The front's pieces stay where they are in the whole block. */
  lemma FrontInBlock(b: string, g: string, cm: string, e: string)
    requires b == Front(cm, e) + g
    ensures |b| >= 37 + |cm| + |e|
    ensures OccursAt(b, "        \n        ", 0) && OccursAt(b, cm, 17)
    ensures OccursAt(b, "\n        location ", 17 + |cm|) && OccursAt(b, e, 35 + |cm|)
    ensures OccursAt(b, " {", 35 + |cm| + |e|)
  {
    var f := Front(cm, e);
    FrontOccurs(cm, e);
    OccursExtend(f, g, "        \n        ", 0);
    OccursExtend(f, g, cm, 17);
    OccursExtend(f, g, "\n        location ", 17 + |cm|);
    OccursExtend(f, g, e, 35 + |cm|);
    OccursExtend(f, g, " {", 35 + |cm| + |e|);
  }

  /** The block's blank first line has no `#`. */
  lemma NoHashInIndent(b: string)
    requires OccursAt(b, "        \n        ", 0)
    ensures NoHashBefore(b, 17)
  {
    forall k | 0 <= k < 17 && k < |b| ensures b[k] != '#' {
      OccursAtChar(b, "        \n        ", 0, k);
    }
  }

  /** The comment line: `# ` and then no newline. */
  lemma CommentInBlock(b: string, cm: string)
    requires OccursAt(b, cm, 17) && |cm| >= 2 && cm[..2] == "# " && NoNewline(cm)
    ensures OccursAt(b, "# ", 17) && AllIn(NoneOf("\n"), b, 19, 17 + |cm|)
  {
    assert cm == "# " + cm[2..];
    OccursSplit(b, "# ", cm[2..], 17);
    assert '\n' !in cm[2..];
    AvoidsClass(cm[2..], '\n');
    AllInOccurrence(NoneOf("\n"), b, cm[2..], 19);
  }

  /** The newline, the indentation and the `location` keyword. */
  lemma LocationInBlock(b: string, nl: nat)
    requires OccursAt(b, "\n        location ", nl)
    ensures b[nl] == '\n' && AllIn(Space, b, nl + 1, nl + 9) && OccursAt(b, "location ", nl + 9)
  {
    assert "\n        location " == "\n" + ("        " + "location ");
    OccursSplit(b, "\n", "        " + "location ", nl);
    OccursSplit(b, "        ", "location ", nl + 1);
    OccursAtChar(b, "\n", nl, 0);
    AllInOccurrence(Space, b, "        ", nl + 1);
  }

  /** The comment line and the `location` header of the front, seen in the whole block. */
  lemma FrontLayout(b: string, g: string, cm: string, e: string)
    requires b == Front(cm, e) + g && |cm| >= 2 && cm[..2] == "# " && NoNewline(cm)
    requires e != [] && forall k | 0 <= k < |e| :: !IsSpace(e[k])
    ensures NoHashBefore(b, 17) && CommentLayout(b, 17, 17 + |cm|, 35 + |cm|)
    ensures AllIn(NonSpace, b, 35 + |cm|, 35 + |cm| + |e|) && OccursAt(b, " {", 35 + |cm| + |e|)
    ensures OccursAt(b, cm, 17) && OccursAt(b, e, 35 + |cm|)
  {
    FrontInBlock(b, g, cm, e);
    NoHashInIndent(b);
    CommentInBlock(b, cm);
    LocationInBlock(b, 17 + |cm|);
    AllInOccurrence(NonSpace, b, e, 35 + |cm|);
  }

  /** The `[^}]*` part: nothing between the front and the last character is a `}`. */
  lemma MiddleLayout(b: string, f: string, m: string)
    requires b == f + m + "}" && '}' !in m
    ensures AllIn(NoneOf("}"), b, |f|, |b| - 1) && b[|b| - 1] == '}'
  {
    OccursInConcat(f, m, "}");
    AvoidsClass(m, '}');
    AllInOccurrence(NoneOf("}"), b, m, |f|);
  }

  /** The pieces of the `proxy_pass` line, seen in the whole block. */
  lemma ProxyPassInBlock(b: string, pre: string, post: string, scheme: string, upstream: string)
    requires b == pre + ("            " + ("proxy_pass " + (scheme + ("://" + (upstream + ";"))))) + post
    ensures var p := |pre| + 12;
            var c := p + 11 + |scheme|;
            && OccursAt(b, "proxy_pass ", p) && OccursAt(b, scheme, p + 11) && OccursAt(b, "://", c)
            && OccursAt(b, upstream, c + 3) && OccursAt(b, ";", c + 3 + |upstream|)
            && |b| == c + 3 + |upstream| + 1 + |post|
  {
    var line := "            " + ("proxy_pass " + (scheme + ("://" + (upstream + ";"))));
    NestedPieces("            ", "proxy_pass ", scheme, "://", upstream, ";");
    OccursInConcat(pre, line, post);
    OccursWithin(b, line, "proxy_pass ", |pre|, 12);
    OccursWithin(b, line, scheme, |pre|, 23);
    OccursWithin(b, line, "://", |pre|, 23 + |scheme|);
    OccursWithin(b, line, upstream, |pre|, 26 + |scheme|);
    OccursWithin(b, line, ";", |pre|, 26 + |scheme| + |upstream|);
  }

  /** After the scheme's `:` comes `//`, the upstream name, `;` and then text without `:`. */
  lemma NoColonAfterScheme(b: string, c: nat, upstream: string, post: string)
    requires OccursAt(b, "://", c) && OccursAt(b, upstream, c + 3) && OccursAt(b, ";", c + 3 + |upstream|)
    requires forall k | 0 <= k < |upstream| :: upstream[k] != ':'
    requires b == b[..c + 3 + |upstream| + 1] + post && ':' !in post
    ensures forall k | c < k < |b| :: b[k] != ':'
  {
    var u1 := c + 3 + |upstream|;
    forall k | c < k < |b| ensures b[k] != ':' {
      if k < c + 3 {
        OccursAtChar(b, "://", c, k - c);
      } else if k < u1 {
        OccursAtChar(b, upstream, c + 3, k - c - 3);
      } else if k == u1 {
        OccursAtChar(b, ";", u1, 0);
      } else {
        assert b[k] == post[k - u1 - 1];
        assert post[k - u1 - 1] in post;
      }
    }
  }

  /** The `proxy_pass` line in the whole block, and no `:` after its scheme. */
  lemma ProxyPassLayout(b: string, pre: string, post: string, scheme: string, upstream: string) returns (p: nat, c: nat)
    requires b == pre + ("            " + ("proxy_pass " + (scheme + ("://" + (upstream + ";"))))) + post
    requires scheme != [] && forall k | 0 <= k < |scheme| :: !IsSpace(scheme[k]) && scheme[k] != ':'
    requires upstream != [] && forall k | 0 <= k < |upstream| :: upstream[k] !in "/;:}"
    requires ':' !in post
    ensures p == |pre| + 12 && c == p + 11 + |scheme|
    ensures OccursAt(b, "proxy_pass ", p) && AllIn(NonSpace, b, p + 11, c) && AllIn(NoneOf(":"), b, p + 11, c)
    ensures OccursAt(b, "://", c) && AllIn(NoneOf("/;"), b, c + 3, c + 3 + |upstream|)
    ensures b[c + 3 + |upstream|] == ';' && |b| == c + 3 + |upstream| + 1 + |post|
    ensures OccursAt(b, upstream, c + 3) && forall k | c < k < |b| :: b[k] != ':'
  {
    p := |pre| + 12;
    c := p + 11 + |scheme|;
    var u1 := c + 3 + |upstream|;
    ProxyPassInBlock(b, pre, post, scheme, upstream);
    AllInOccurrence(NonSpace, b, scheme, p + 11);
    AllInOccurrence(NoneOf(":"), b, scheme, p + 11);
    AllInOccurrence(NoneOf("/;"), b, upstream, c + 3);
    OccursAtChar(b, ";", u1, 0);
    assert b == b[..u1 + 1] + post;
    NoColonAfterScheme(b, c, upstream, post);
  }

  // Which lines of a block avoid `}` and `:`.

  lemma RewriteAvoids(e: string, u: Url)
    requires '}' !in e && '}' !in u.path
    ensures '}' !in RewriteRule(e, u)
  {
    RStripAvoids(e, '/', '}');
    EscapeAvoids(RStrip(e, '/'), '}');
    RStripAvoids(u.path, '/', '}');
    assert '}' !in BasePath(u);
  }

  lemma RemoveLineAvoids(e: string)
    requires '}' !in e
    ensures '}' !in "            # Remove " + RStrip(e, '/') + " prefix and pass to upstream"
  {
    RStripAvoids(e, '/', '}');
  }

  lemma ProxyPassLineAvoids(scheme: string, upstream: string)
    requires '}' !in scheme && forall k | 0 <= k < |upstream| :: upstream[k] !in "/;:}"
    ensures '}' !in "            proxy_pass " + scheme + "://" + upstream + ";"
  {
    assert '}' !in upstream by {
      forall k | 0 <= k < |upstream| ensures upstream[k] != '}' {
        assert upstream[k] !in "/;:}";
      }
    }
  }

  /** The lines from the `# Remove` comment to the `proxy_pass` line have no `}`. */
  lemma HeadAvoids(e: string, u: Url, upstream: string, name: Option<string>)
    requires Readable(e, u, upstream, name)
    ensures LinesAvoid(LocationHead(e, u, upstream, name)[3..], '}')
  {
    RemoveLineAvoids(e);
    RewriteAvoids(e, u);
    ProxyPassLineAvoids(u.scheme, upstream);
    LastFourAvoid(LocationHead(e, u, upstream, name), '}');
  }

  lemma LastFourAvoid(head: seq<string>, ch: char)
    requires |head| == 7 && ch !in head[3] && ch !in head[4] && ch !in head[5] && ch !in head[6]
    ensures LinesAvoid(head[3..], ch)
  {
    assert head[3..] == [head[3], head[4], head[5], head[6]];
  }

  /** The SSL lines have neither `}` nor `:`. */
  lemma SslAvoids(u: Url, ch: char)
    requires u.scheme == "https" ==> u.hostname.Some?
    requires ch in "}:" && ch !in HostText(u.hostname)
    ensures LinesAvoid(SslLines(u), ch)
  {
  }

  /** A `proxy_set_header` line whose field and value avoid `}` or `:` avoids it too. */
  lemma SetHeaderAvoids(field: string, value: string, ch: char)
    requires ch in "}:" && ch !in field && ch !in value
    ensures ch !in SetHeader(field, value)
  {
  }

  lemma HeaderSectionAvoids(u: Url, ch: char)
    requires ch in "}:" && ch !in HostText(u.hostname)
    ensures LinesAvoid(HeaderSection(u), ch)
  {
    SetHeaderAvoids("Host", HostText(u.hostname), ch);
    SetHeaderAvoids("X-Real-IP", "$remote_addr", ch);
    SetHeaderAvoids("X-Forwarded-For", "$proxy_add_x_forwarded_for", ch);
    SetHeaderAvoids("X-Forwarded-Proto", "$scheme", ch);
  }

  lemma WebSocketAvoids(ch: char)
    requires ch in "}:"
    ensures LinesAvoid(WebSocketSection(), ch)
  {
    SetHeaderAvoids("Upgrade", "$http_upgrade", ch);
    SetHeaderAvoids("Connection", "$connection_upgrade", ch);
  }

  lemma TimeoutAvoids(ch: char)
    requires ch in "}:"
    ensures LinesAvoid(TimeoutSection(), ch)
  {
    var t := TimeoutSection();
    assert ch !in t[0] && ch !in t[1];
    assert ch !in t[2] && ch !in t[3];
  }

  lemma BufferAvoids(ch: char)
    requires ch in "}:"
    ensures LinesAvoid(BufferSection(), ch)
  {
    var t := BufferSection();
    assert ch !in t[0];
    assert ch !in t[1] && ch !in t[2];
  }

  /** The lines between the SSL lines and the closing `}` have neither `}` nor `:`. */
  lemma TailBodyAvoids(u: Url, ch: char)
    requires ch in "}:" && ch !in HostText(u.hostname)
    ensures LinesAvoid(TailBody(u), ch)
  {
    var blank := ["            "];
    assert LinesAvoid(blank, ch);
    HeaderSectionAvoids(u, ch);
    WebSocketAvoids(ch);
    TimeoutAvoids(ch);
    BufferAvoids(ch);
    LinesAvoidConcat(blank, HeaderSection(u), ch);
    LinesAvoidConcat(blank + HeaderSection(u), blank, ch);
    LinesAvoidConcat(blank + HeaderSection(u) + blank, WebSocketSection(), ch);
    LinesAvoidConcat(blank + HeaderSection(u) + blank + WebSocketSection(), blank, ch);
    LinesAvoidConcat(blank + HeaderSection(u) + blank + WebSocketSection() + blank, TimeoutSection(), ch);
    LinesAvoidConcat(blank + HeaderSection(u) + blank + WebSocketSection() + blank + TimeoutSection(), blank, ch);
    LinesAvoidConcat(blank + HeaderSection(u) + blank + WebSocketSection() + blank + TimeoutSection() + blank,
                     BufferSection(), ch);
  }

  /** The lines after the SSL lines have no `:`. */
  lemma TailAvoidsColon(u: Url)
    requires ':' !in HostText(u.hostname)
    ensures LinesAvoid(LocationTail(u), ':')
  {
    TailBodyAvoids(u, ':');
    assert LinesAvoid(["        }"], ':');
    LinesAvoidConcat(TailBody(u), ["        }"], ':');
  }

  /** The text between a block's front and its closing `}` has no `}`. */
  lemma MiddleAvoids(e: string, u: Url, upstream: string, name: Option<string>)
    requires Readable(e, u, upstream, name)
    ensures '}' !in "\n" + Join(LocationHead(e, u, upstream, name)[3..] + SslLines(u) + TailBody(u)) + "\n" + "        "
  {
    var head := LocationHead(e, u, upstream, name)[3..];
    HeadAvoids(e, u, upstream, name);
    SslAvoids(u, '}');
    TailBodyAvoids(u, '}');
    LinesAvoidConcat(head, SslLines(u), '}');
    LinesAvoidConcat(head + SslLines(u), TailBody(u), '}');
    JoinAvoids(head + SslLines(u) + TailBody(u), '}');
  }

  /** The text after a block's `proxy_pass` line has no `:`. */
  lemma AfterProxyPassAvoids(u: Url)
    requires (u.scheme == "https" ==> u.hostname.Some?) && ':' !in HostText(u.hostname)
    ensures ':' !in "\n" + Join(SslLines(u) + LocationTail(u))
  {
    SslAvoids(u, ':');
    TailAvoidsColon(u);
    LinesAvoidConcat(SslLines(u), LocationTail(u), ':');
    JoinAvoids(SslLines(u) + LocationTail(u), ':');
  }

  lemma CommentShape(u: Url, name: Option<string>)
    ensures |CommentText(u, name)| >= 2 && CommentText(u, name)[..2] == "# "
  {
  }

  /** The facts `TailLayout` gathers. */
  lemma TailAssembled(b: string, e0: nat, e1: nat, p: nat, c: nat, u1: nat, z: nat)
    requires e0 < e1 && e1 + 2 <= p && p + 11 < c && c + 3 < u1 && u1 <= z < |b|
    requires AllIn(NonSpace, b, e0, e1) && OccursAt(b, " {", e1)
    requires AllIn(NoneOf("}"), b, e1 + 2, z) && b[z] == '}'
    requires OccursAt(b, "proxy_pass ", p) && AllIn(NonSpace, b, p + 11, c) && AllIn(NoneOf(":"), b, p + 11, c)
    requires OccursAt(b, "://", c) && AllIn(NoneOf("/;"), b, c + 3, u1) && b[u1] == ';'
    requires forall k | c < k < |b| :: b[k] != ':'
    ensures TailLayout(b, e0, e1, p, c, u1, z)
  {
  }

  /** Text laid out as a block is laid out has the layout the listing pattern reads. */
  lemma PiecesLayout(b: string, cm: string, e: string, m: string, pre: string, line: string, post: string,
                     scheme: string, upstream: string) returns (at: Spots)
    requires b == Front(cm, e) + m + "}" && '}' !in m
    requires |cm| >= 2 && cm[..2] == "# " && NoNewline(cm)
    requires e != [] && forall k | 0 <= k < |e| :: !IsSpace(e[k])
    requires b == pre + line + post && |pre| >= |Front(cm, e)| + 1 && ':' !in post
    requires line == "            " + ("proxy_pass " + (scheme + ("://" + (upstream + ";"))))
    requires scheme != [] && forall k | 0 <= k < |scheme| :: !IsSpace(scheme[k]) && scheme[k] != ':'
    requires upstream != [] && forall k | 0 <= k < |upstream| :: upstream[k] !in "/;:}"
    ensures BlockShape(b, cm, e, upstream, at)
  {
    FrontLength(cm, e);
    MiddleLayout(b, Front(cm, e), m);
    FrontLayout(b, m + "}", cm, e);
    var p, c := ProxyPassLayout(b, pre, post, scheme, upstream);
    var e0 := 35 + |cm|;
    TailAssembled(b, e0, e0 + |e|, p, c, c + 3 + |upstream|, |b| - 1);
    at := Gathered(b, cm, e, upstream, p, c);
  }

  /** The same layout, with its positions gathered. */
  lemma Gathered(b: string, cm: string, e: string, upstream: string, p: nat, c: nat) returns (at: Spots)
    requires |b| >= 1
    requires ListingLayout(b, 17, 17 + |cm|, 35 + |cm|, 35 + |cm| + |e|, p, c, c + 3 + |upstream|, |b| - 1)
    requires OccursAt(b, cm, 17) && OccursAt(b, e, 35 + |cm|) && OccursAt(b, upstream, c + 3)
    ensures BlockShape(b, cm, e, upstream, at)
  {
    at := Spots(17 + |cm|, 35 + |cm|, 35 + |cm| + |e|, p, c, c + 3 + |upstream|, |b| - 1);
  }

  /** A block generated from readable values has the layout the listing pattern reads. */
  lemma BlockLayout(e: string, u: Url, upstream: string, name: Option<string>) returns (b: string, at: Spots)
    requires Readable(e, u, upstream, name)
    ensures LocationBlock(e, u, upstream, name) == Some(b)
    ensures BlockShape(b, CommentText(u, name), e, upstream, at)
  {
    BlockAroundMiddle(e, u, upstream, name);
    MiddleAvoids(e, u, upstream, name);
    var pre := BlockAroundProxyPass(e, u, upstream, name);
    AfterProxyPassAvoids(u);
    ProxyPassText(u.scheme, upstream);
    CommentShape(u, name);
    b := LocationBlock(e, u, upstream, name).value;
    at := PiecesLayout(b, CommentText(u, name), e,
                 "\n" + Join(LocationHead(e, u, upstream, name)[3..] + SslLines(u) + TailBody(u)) + "\n" + "        ",
                 pre, LocationHead(e, u, upstream, name)[6], "\n" + Join(SslLines(u) + LocationTail(u)),
                 u.scheme, upstream);
  }

  /** The listing pattern reads a generated block back: its first match spans the block from
      the comment to the closing `}`, and its groups are the comment without `# `, the endpoint
      and the upstream name the block was generated with. */
  lemma ListingReadsBlock(e: string, u: Url, upstream: string, name: Option<string>)
    requires Readable(e, u, upstream, name)
    ensures LocationBlock(e, u, upstream, name).Some?
    ensures var b := LocationBlock(e, u, upstream, name).value;
            var f := SearchFrom(ListingPattern(), b, 0);
            && f.Some? && f.value.start == 17 && f.value.end == |b| && GroupsIn(b, f.value, 3)
            && Group(b, f.value, 0) == CommentText(u, name)[2..]
            && Group(b, f.value, 1) == e && Group(b, f.value, 2) == upstream
  {
    var b, at := BlockLayout(e, u, upstream, name);
    CommentShape(u, name);
    ShapeRead(b, CommentText(u, name), e, upstream, at);
  }

  /** `list_proxies` on a generated block alone reports exactly that proxy, unless its endpoint
      is reserved: the endpoint, the target the server address rule gives for the upstream
      name, and the name unless it was absent, empty or starts with `Proxy for`. */
  lemma BlockListed(e: string, u: Url, upstream: string, name: Option<string>)
    requires Readable(e, u, upstream, name)
    ensures LocationBlock(e, u, upstream, name).Some?
    ensures var b := LocationBlock(e, u, upstream, name).value;
            ProxyList(b)
            == if Reserved(e) then []
               else [Proxy(e, TargetFor(b, upstream, AsWritten),
                           if HasName(name) && !StartsWith(name.value, "Proxy for") then name else None)]
  {
    ListingReadsBlock(e, u, upstream, name);
    NameRoundTrip(u, name);
    var b := LocationBlock(e, u, upstream, name).value;
    var f := SearchFrom(ListingPattern(), b, 0).value;
    ListingPatternShape();
    assert FindAll(ListingPattern(), b, 0) == [f] + FindAll(ListingPattern(), b, |b|);
    assert ListingMatches(b) == [f];
    var xs := Candidates(b, [f], AsWritten);
    assert xs == [EntryOf(b, f, AsWritten)];
    assert Unreserved(xs) == if Reserved(e) then [] else xs by {
      assert xs[..0] == [];
    }
  }
}
