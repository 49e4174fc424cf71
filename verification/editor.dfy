/**
  The text transformations of `add_proxy` and `remove_proxy`, as functions of the configuration
  text (llm_proxy_cli/nginx_manager.py, lines 119-203).  The class in module Manager performs
  them step by step on its `config` field and is proved to end where these functions say.

  `add_proxy` works in two stages.  First it makes sure an `upstream <name> {` header exists,
  splicing a generated upstream block in after the last annotated upstream block, or else right
  after the newline before `# HTTP server`.  Then it puts the location block right after the
  baseline `/openai/` rule of the HTTP server, and a commented copy right after the commented
  baseline rule of the HTTPS section when that exists.  Every exception ends the call with
  `False` and nothing written; here each one is a `Failed` value naming its cause.
*/
module Editor {
  import opened Regex
  import opened Text
  import opened Patterns
  import opened Blocks

  /** Why `add_proxy` returns `False`. */
  datatype AddError =
    | InvalidPort         // `parsed.port` raises ValueError while generating the upstream block
    | NoUpstreamPosition  // neither an annotated upstream block nor `# HTTP server` is there
    | NoHostForTls        // an `https` URL without a host name: `TypeError` in the location block
    | NoHttpAnchor        // the baseline `/openai/` rule of the HTTP server is missing

  datatype Edit = Edited(config: string) | Failed(error: AddError)

  /** `config[:pos] + text + config[pos:]`: the text before and after `pos` is kept. */
  function Insert(s: string, pos: nat, text: string): (r: string)
    requires pos <= |s|
    ensures |r| == |s| + |text|
    ensures r[..pos] == s[..pos] && r[pos + |text|..] == s[pos..]
    ensures OccursAt(r, text, pos)
  {
    assert (s[..pos] + text + s[pos..])[pos..pos + |text|] == text;
    s[..pos] + text + s[pos..]
  }

  /** The placement rule of lines 137-151: right after the last match of `last`, else one past
      the start of the first match of `first`; `None` when neither matches. */
  function PositionAfter(c: string, last: Pat, first: Pat): (r: Option<nat>)
    requires MinLen(last) > 0 && MinLen(first) > 0
    ensures r.Some? ==> 0 < r.value <= |c|
  {
    var ms := FindAll(last, c, 0);
    if ms != [] then Some(ms[|ms| - 1].end)
    else
      match SearchFrom(first, c, 0)
      case None => None
      case Some(f) => Some(f.start + 1)
  }

  /** With a match of `last`, the position is past every match of it: none follows. */
  lemma AfterLastMatch(c: string, last: Pat, first: Pat)
    requires MinLen(last) > 0 && MinLen(first) > 0 && FindAll(last, c, 0) != []
    ensures PositionAfter(c, last, first).Some?
    ensures SearchFrom(last, c, PositionAfter(c, last, first).value).None?
  {
    FindAllLastIsLast(last, c, 0);
  }

  /** ... and it starts a line when `last` ends with a newline. */
  lemma AfterLastMatchNewline(c: string, last: Pat, first: Pat, w: string)
    requires MinLen(last) > 0 && MinLen(first) > 0 && FindAll(last, c, 0) != []
    requires EndsWithLit(last, w) && |w| > 0 && w[|w| - 1] == '\n'
    ensures PositionAfter(c, last, first).Some? && c[PositionAfter(c, last, first).value - 1] == '\n'
  {
    var f := LastMatch(c, last, first);
    MatchEndsWithNewline(last, c, f.start, f.end, f.marks, w);
  }

  /** The last match of `last`, which `PositionAfter` reports the end of. */
  lemma LastMatch(c: string, last: Pat, first: Pat) returns (f: Found)
    requires MinLen(last) > 0 && MinLen(first) > 0 && FindAll(last, c, 0) != []
    ensures f.start <= |c| && MatchFrom(last, c, f.start) == Some(Hit(f.end, f.marks))
    ensures PositionAfter(c, last, first) == Some(f.end)
  {
    var ms := FindAll(last, c, 0);
    f := ms[|ms| - 1];
  }

  /** A match of a pattern that ends with a line break ends just after a newline. */
  lemma MatchEndsWithNewline(p: Pat, c: string, i: nat, j: nat, ms: seq<nat>, w: string)
    requires i <= |c| && MatchFrom(p, c, i) == Some(Hit(j, ms))
    requires EndsWithLit(p, w) && |w| > 0 && w[|w| - 1] == '\n'
    ensures 0 < j <= |c| && c[j - 1] == '\n'
  {
    MatchEndsWithLit(p, c, i, w);
    OccursAtChar(c, w, j - |w|, |w| - 1);
  }

  /** Without a match of `last`, the position is one past the start of the first match of
      `first`, which is a newline when `first` starts with one. */
  lemma {:induction false} BeforeFirstMatch(c: string, last: Pat, first: Pat, rest: Pat)
    requires MinLen(last) > 0 && MinLen(first) > 0 && FindAll(last, c, 0) == []
    requires first == Then(Lit("\n"), rest)
    ensures var r := PositionAfter(c, last, first);
            && (r.Some? <==> SearchFrom(first, c, 0).Some?)
            && (r.Some? ==> SearchFrom(first, c, 0).value.start == r.value - 1 && c[r.value - 1] == '\n')
  {
    match SearchFrom(first, c, 0)
    case None =>
    case Some(f) =>
      MatchLitStart("\n", rest, c, f.start);
      OccursAtChar(c, "\n", f.start, 0);
  }

  /** Where `add_proxy` puts a new upstream block: after the last annotated upstream block, else
      right after the newline before `# HTTP server`. */
  function UpstreamInsertPos(c: string): (r: Option<nat>)
    ensures r.Some? ==> 0 < r.value <= |c|
  {
    PositionAfter(c, UpstreamAnchor(), HttpServerAnchor())
  }

  lemma UpstreamAnchorsShape()
    ensures EndsWithLit(UpstreamAnchor(), "}\n") && "}\n"[1] == '\n'
    ensures HttpServerAnchor() == Then(Lit("\n"), HttpServerAnchor().tail)
    ensures MinLen(UpstreamAnchor()) > 0 && MinLen(HttpServerAnchor()) > 0
  {
  }

  /** The new upstream block always starts on a line of its own. */
  lemma UpstreamInsertPosStartsLine(c: string)
    requires UpstreamInsertPos(c).Some?
    ensures c[UpstreamInsertPos(c).value - 1] == '\n'
  {
    UpstreamAnchorsShape();
    if FindAll(UpstreamAnchor(), c, 0) != [] {
      AfterLastMatchNewline(c, UpstreamAnchor(), HttpServerAnchor(), "}\n");
    } else {
      BeforeFirstMatch(c, UpstreamAnchor(), HttpServerAnchor(), HttpServerAnchor().tail);
    }
  }

  /** Lines 128-153: the text once the upstream is declared.  An existing `upstream <name> {`
      header is reused as it is; otherwise the generated block goes in on lines of its own. */
  function WithUpstream(c: string, u: Url, upstream: string): (r: Edit)
    ensures HasHeader(c, "upstream", upstream) ==> r == Edited(c)
    ensures r.Failed? ==> r.error == InvalidPort || r.error == NoUpstreamPosition
  {
    if HeaderPresent(c, "upstream", upstream) then Edited(c)
    else
      match UpstreamBlock(u, upstream)
      case None => Failed(InvalidPort)
      case Some(block) =>
        match UpstreamInsertPos(c)
        case None => Failed(NoUpstreamPosition)
        case Some(pos) => Edited(Insert(c, pos, "\n" + block + "\n"))
  }

  /** Without an existing header, the upstream step succeeds exactly when the port reads and a
      position is found. */
  lemma WithUpstreamSucceeds(c: string, u: Url, upstream: string)
    requires !HasHeader(c, "upstream", upstream)
    ensures WithUpstream(c, u, upstream).Edited? <==> UpstreamBlock(u, upstream).Some? && UpstreamInsertPos(c).Some?
    ensures WithUpstream(c, u, upstream).Failed? ==>
              WithUpstream(c, u, upstream).error == (if UpstreamBlock(u, upstream).None? then InvalidPort else NoUpstreamPosition)
  {
  }

  /** After the upstream step the text declares the upstream. */
  lemma WithUpstreamDeclares(c: string, u: Url, upstream: string)
    requires WithUpstream(c, u, upstream).Edited?
    ensures HasHeader(WithUpstream(c, u, upstream).config, "upstream", upstream)
  {
    if !HeaderPresent(c, "upstream", upstream) {
      var block := UpstreamBlock(u, upstream).value;
      var pos := UpstreamInsertPos(c).value;
      UpstreamBlockShape(u, upstream);
      HeaderOnOwnLines(block, "upstream", upstream);
      HeaderInserted(c, pos, "\n" + block + "\n", "upstream", upstream);
    }
  }

  /** A new upstream block lands between the kept text before and after its position, on lines
      of its own. */
  lemma NewUpstreamPlacement(c: string, u: Url, upstream: string)
    requires !HasHeader(c, "upstream", upstream) && WithUpstream(c, u, upstream).Edited?
    ensures var pos := UpstreamInsertPos(c).value;
            var block := UpstreamBlock(u, upstream).value;
            var r := WithUpstream(c, u, upstream).config;
            && r[..pos] == c[..pos] && r[pos + |block| + 2..] == c[pos..]
            && OccursAt(r, "\n" + block + "\n", pos) && r[pos - 1] == '\n'
  {
    var pos := UpstreamInsertPos(c).value;
    var r := WithUpstream(c, u, upstream).config;
    UpstreamInsertPosStartsLine(c);
    assert r[..pos][pos - 1] == r[pos - 1];
  }

  /** The splice of lines 155-176: `block` right after the first match of `http`, then
      `Commented(block)` right after the first match of `https` in that text, if any. */
  function SpliceAfter(c: string, block: string, http: Pat, https: Pat): (r: Option<string>)
    ensures r.None? <==> SearchFrom(http, c, 0).None?
  {
    match SearchFrom(http, c, 0)
    case None => None
    case Some(f) =>
      var withHttp := Insert(c, f.end, block);
      match SearchFrom(https, withHttp, 0)
      case None => Some(withHttp)
      case Some(g) => Some(Insert(withHttp, g.end, Commented(block)))
  }

  /** Text spliced in right after a `}` keeps every header of a keyword and word without `}`. */
  lemma {:induction false} SpliceKeepsHeaders(c: string, block: string, http: Pat, https: Pat, keyword: string, word: string)
    requires SpliceAfter(c, block, http, https).Some? && HasHeader(c, keyword, word)
    requires EndsWithLit(http, "}") && EndsWithLit(https, "}")
    requires '}' !in keyword && '}' !in word
    ensures HasHeader(SpliceAfter(c, block, http, https).value, keyword, word)
  {
    var f := SearchFrom(http, c, 0).value;
    AnchorsEndWithBrace(c, http, f.start);
    HeaderSurvivesInsert(c, keyword, word, f.end, block);
    var withHttp := Insert(c, f.end, block);
    match SearchFrom(https, withHttp, 0)
    case None =>
    case Some(g) =>
      AnchorsEndWithBrace(withHttp, https, g.start);
      HeaderSurvivesInsert(withHttp, keyword, word, g.end, Commented(block));
  }

  /** A header of the spliced block is in the result. */
  lemma {:induction false} SpliceDeclares(c: string, block: string, http: Pat, https: Pat, keyword: string, word: string)
    requires SpliceAfter(c, block, http, https).Some? && HasHeader(block, keyword, word)
    requires EndsWithLit(https, "}") && '}' !in keyword && '}' !in word
    ensures HasHeader(SpliceAfter(c, block, http, https).value, keyword, word)
  {
    var f := SearchFrom(http, c, 0).value;
    HeaderInserted(c, f.end, block, keyword, word);
    var withHttp := Insert(c, f.end, block);
    match SearchFrom(https, withHttp, 0)
    case None =>
    case Some(g) =>
      AnchorsEndWithBrace(withHttp, https, g.start);
      HeaderSurvivesInsert(withHttp, keyword, word, g.end, Commented(block));
  }

  /** Text spliced in makes the result grow by the block, and by its commented copy exactly
      when the second anchor is found once the block is in. */
  lemma SpliceLength(c: string, block: string, http: Pat, https: Pat)
    requires SpliceAfter(c, block, http, https).Some?
    ensures var r := SpliceAfter(c, block, http, https).value;
            var withHttp := Insert(c, SearchFrom(http, c, 0).value.end, block);
            && (SearchFrom(https, withHttp, 0).None? ==> |r| == |c| + |block|)
            && (SearchFrom(https, withHttp, 0).Some? ==> |r| == |c| + |block| + |Commented(block)|)
  {
  }

  /** The anchors after which the location blocks go end with the `}` of the baseline rule. */
  lemma AnchorsEndWithBrace(s: string, p: Pat, i: nat)
    requires EndsWithLit(p, "}")
    requires i <= |s| && MatchFrom(p, s, i).Some?
    ensures 0 < MatchFrom(p, s, i).value.end && s[MatchFrom(p, s, i).value.end - 1] == '}'
  {
    MatchEndsWithLit(p, s, i, "}");
    OccursAtChar(s, "}", MatchFrom(p, s, i).value.end - 1, 0);
  }

  lemma AnchorsEndWithLiterals()
    ensures EndsWithLit(HttpAnchor(), "}") && EndsWithLit(HttpsAnchor(), "}")
  {
  }

  /** Lines 155-176: the location block right after the HTTP anchor, then its commented copy
      right after the HTTPS anchor when there is one. */
  function WithLocation(c: string, e: string, u: Url, upstream: string, name: Option<string>): (r: Edit)
    ensures r.Failed? <==> LocationBlock(e, u, upstream, name).None? || SearchFrom(HttpAnchor(), c, 0).None?
    ensures r.Failed? ==> r.error == (if LocationBlock(e, u, upstream, name).None? then NoHostForTls else NoHttpAnchor)
  {
    match LocationBlock(e, u, upstream, name)
    case None => Failed(NoHostForTls)
    case Some(block) =>
      match SpliceAfter(c, block, HttpAnchor(), HttpsAnchor())
      case None => Failed(NoHttpAnchor)
      case Some(r) => Edited(r)
  }

  /** Whatever `WithLocation` inserts goes in right after a `}`, so it keeps every header of a
      keyword and word without `}`. */
  lemma WithLocationKeepsHeaders(c: string, e: string, u: Url, upstream: string, name: Option<string>,
                                 keyword: string, word: string)
    requires WithLocation(c, e, u, upstream, name).Edited? && HasHeader(c, keyword, word)
    requires '}' !in keyword && '}' !in word
    ensures HasHeader(WithLocation(c, e, u, upstream, name).config, keyword, word)
  {
    AnchorsEndWithLiterals();
    SpliceKeepsHeaders(c, LocationBlock(e, u, upstream, name).value, HttpAnchor(), HttpsAnchor(), keyword, word);
  }

  /** After `WithLocation` the endpoint's location header is in the text. */
  lemma WithLocationDeclaresEndpoint(c: string, e: string, u: Url, upstream: string, name: Option<string>)
    requires WithLocation(c, e, u, upstream, name).Edited? && '}' !in e
    ensures HasHeader(WithLocation(c, e, u, upstream, name).config, "location", e)
  {
    var block := LocationBlock(e, u, upstream, name).value;
    LocationBlockHeader(e, u, upstream, name);
    AnchorsEndWithLiterals();
    KeywordsWithoutBrace();
    SpliceDeclares(c, block, HttpAnchor(), HttpsAnchor(), "location", e);
  }

  /** `add_proxy(endpoint, base_url, name)`: the text it writes, or why it writes nothing. */
  function AddedConfig(c: string, e: string, u: Url, name: Option<string>): Edit {
    var upstream := UpstreamName(u.hostname);
    match WithUpstream(c, u, upstream)
    case Failed(error) => Failed(error)
    case Edited(withUpstream) => WithLocation(withUpstream, e, u, upstream, name)
  }

  lemma KeywordsWithoutBrace()
    ensures '}' !in "location" && '}' !in "upstream"
  {
  }

  /** The host name's `}` is the only way the upstream name gets one. */
  lemma UpstreamNameWithoutBrace(hostname: Option<string>)
    requires '}' !in HostOrUnknown(hostname)
    ensures '}' !in UpstreamName(hostname)
  {
    var h, r := HostOrUnknown(hostname), UpstreamName(hostname);
    forall k | 0 <= k < |r| ensures r[k] != '}' {
      if k < |h| {
        assert h[k] in h;
      } else {
        assert r[k] == r[|h|..][k - |h|];
      }
    }
  }

  /** After a successful `add_proxy`, `proxy_exists(endpoint)` holds and the upstream the
      location forwards to is declared. */
  lemma AddDeclaresEndpointAndUpstream(c: string, e: string, u: Url, name: Option<string>)
    requires AddedConfig(c, e, u, name).Edited?
    requires '}' !in e && '}' !in HostOrUnknown(u.hostname)
    ensures HasHeader(AddedConfig(c, e, u, name).config, "location", e)
    ensures HasHeader(AddedConfig(c, e, u, name).config, "upstream", UpstreamName(u.hostname))
  {
    var upstream := UpstreamName(u.hostname);
    var withUpstream := WithUpstream(c, u, upstream).config;
    WithUpstreamDeclares(c, u, upstream);
    WithLocationDeclaresEndpoint(withUpstream, e, u, upstream, name);
    UpstreamNameWithoutBrace(u.hostname);
    KeywordsWithoutBrace();
    WithLocationKeepsHeaders(withUpstream, e, u, upstream, name, "upstream", upstream);
  }

  /** A URL whose host already has an upstream reuses that block: `add_proxy` is the location
      step alone on the unchanged text, which grows by the location block and, when the HTTPS
      anchor is found after it, by its commented copy. */
  lemma SharedHostAddsOnlyLocations(c: string, e: string, u: Url, name: Option<string>)
    requires HasHeader(c, "upstream", UpstreamName(u.hostname))
    ensures AddedConfig(c, e, u, name) == WithLocation(c, e, u, UpstreamName(u.hostname), name)
    ensures AddedConfig(c, e, u, name).Edited? ==>
              var block := LocationBlock(e, u, UpstreamName(u.hostname), name).value;
              var r := AddedConfig(c, e, u, name).config;
              var withHttp := Insert(c, SearchFrom(HttpAnchor(), c, 0).value.end, block);
              && (SearchFrom(HttpsAnchor(), withHttp, 0).None? ==> |r| == |c| + |block|)
              && (SearchFrom(HttpsAnchor(), withHttp, 0).Some? ==> |r| == |c| + |block| + |Commented(block)|)
  {
    if AddedConfig(c, e, u, name).Edited? {
      SpliceLength(c, LocationBlock(e, u, UpstreamName(u.hostname), name).value, HttpAnchor(), HttpsAnchor());
    }
  }

  /** `add_proxy` fails, writing nothing, when the text has no HTTP anchor and no upstream has
      to be added. */
  lemma AddNeedsHttpAnchor(c: string, e: string, u: Url, name: Option<string>)
    requires HasHeader(c, "upstream", UpstreamName(u.hostname)) && SearchFrom(HttpAnchor(), c, 0).None?
    ensures AddedConfig(c, e, u, name).Failed?
  {
  }

  /** Both removal patterns consume at least one character. */
  lemma RemovalPatternsNonEmpty(e: string)
    ensures MinLen(LiveBlockPattern(e)) > 0 && MinLen(MirrorBlockPattern(e)) > 0
  {
    MinLenAppend(HeaderPattern("location", e), BodyTail());
    MinLenAppend(CommentLead(), Append(HeaderPattern("location", e), BodyTail()));
    MinLenAppend(MirrorLead(), Append(HeaderPattern("location", e), BodyTail()));
  }

  /** `remove_proxy(endpoint)` (lines 184-203): every annotated live block of the endpoint is
      cut out, then every commented mirror of it. */
  function RemovedConfig(c: string, e: string): (r: string)
    ensures |r| <= |c|
  {
    RemovalPatternsNonEmpty(e);
    var withoutLive := Sub(LiveBlockPattern(e), c, 0);
    Sub(MirrorBlockPattern(e), withoutLive, 0)
  }

  /** Exactly the reported matches are cut out: what remains is the text between them. */
  lemma RemovedIsOutsideMatches(c: string, e: string)
    ensures (RemovalPatternsNonEmpty(e);
             var withoutLive := Gaps(c, FindAll(LiveBlockPattern(e), c, 0), 0);
             RemovedConfig(c, e) == Gaps(withoutLive, FindAll(MirrorBlockPattern(e), withoutLive, 0), 0))
  {
    RemovalPatternsNonEmpty(e);
    SubKeepsGaps(LiveBlockPattern(e), c, 0);
    SubKeepsGaps(MirrorBlockPattern(e), Sub(LiveBlockPattern(e), c, 0), 0);
  }

  /** A removal pattern that matches somewhere finds the endpoint's header there. */
  lemma RemovalNeedsHeader(p: Pat, s: string, e: string)
    requires p == LiveBlockPattern(e) || p == MirrorBlockPattern(e)
    requires SearchFrom(p, s, 0).Some?
    ensures HasHeader(s, "location", e)
  {
    var f := SearchFrom(p, s, 0).value;
    MatchSound(p, s, f.start);
    if p == LiveBlockPattern(e) {
      LiveBlockHasHeader(s, e, f.start, f.end, f.marks);
    } else {
      MirrorBlockHasHeader(s, e, f.start, f.end, f.marks);
    }
  }

  /** Removing an endpoint that has no header changes nothing (the file is still written). */
  lemma RemoveAbsentIsIdentity(c: string, e: string)
    requires !HasHeader(c, "location", e)
    ensures RemovedConfig(c, e) == c
  {
    RemovalPatternsNonEmpty(e);
    if SearchFrom(LiveBlockPattern(e), c, 0).Some? {
      RemovalNeedsHeader(LiveBlockPattern(e), c, e);
    }
    assert Sub(LiveBlockPattern(e), c, 0) == c;
    if SearchFrom(MirrorBlockPattern(e), c, 0).Some? {
      RemovalNeedsHeader(MirrorBlockPattern(e), c, e);
    }
  }

  /** Neither removal pattern matches a text without `#`. */
  lemma RemovalNeedsHash(p: Pat, s: string, e: string)
    requires p == LiveBlockPattern(e) || p == MirrorBlockPattern(e)
    requires '#' !in s
    ensures SearchFrom(p, s, 0).None?
  {
    if SearchFrom(p, s, 0).Some? {
      var f := SearchFrom(p, s, 0).value;
      MatchSound(p, s, f.start);
      RemovalPatternsLead(e);
      if p == LiveBlockPattern(e) {
        HashLedNeedsHash("# ", Append(CommentLead().tail.tail, Append(HeaderPattern("location", e), BodyTail())),
                         s, f.start, f.end, f.marks);
      } else {
        HashLedNeedsHash("#", Append(MirrorLead().tail.tail, Append(HeaderPattern("location", e), BodyTail())),
                         s, f.start, f.end, f.marks);
      }
    }
  }

  /** Only commented blocks are removed: a text without any comment is written back unchanged,
      whatever location blocks it has. */
  lemma RemoveWithoutCommentsIsIdentity(c: string, e: string)
    requires '#' !in c
    ensures RemovedConfig(c, e) == c
  {
    RemovalPatternsNonEmpty(e);
    RemovalNeedsHash(LiveBlockPattern(e), c, e);
    assert Sub(LiveBlockPattern(e), c, 0) == c;
    RemovalNeedsHash(MirrorBlockPattern(e), c, e);
  }

  /** So `proxy_exists` can still hold after `remove_proxy`: a location block without the
      comment line above it stays. */
  lemma RemoveMayKeepEndpoint()
    ensures HasHeader("location /x/ {a}", "location", "/x/")
    ensures RemovedConfig("location /x/ {a}", "/x/") == "location /x/ {a}"
  {
    var c := "location /x/ {a}";
    assert c[0..|HeaderText("location", "/x/")|] == HeaderText("location", "/x/");
    HeaderTextOccurs(c, "location", "/x/", 0);
    assert '#' !in c;
    RemoveWithoutCommentsIsIdentity(c, "/x/");
  }
}
