/**
  What `list_proxies` reads back from a location block that `add_proxy` generated: the
  listing pattern matches the block from its comment to its closing `}`, and its groups are
  the name, the endpoint and the upstream the block was generated with.
*/
module Readback {
  import opened Regex
  import opened Text
  import opened Patterns
  import opened Blocks
  import opened Listing

  /** The shape of a text the listing pattern reads as one block: the comment after the first
      `#` at `h` ends at the newline `nl`; `location` and blanks lead to the endpoint
      `[e0, e1)`; the first `}` after ` {` is at `z`; in between, `proxy_pass ` at `p` is
      followed by a scheme without blanks or colons up to the `://` at `c`, and the upstream
      runs from `c + 3` to the `;` at `u1`; no colon follows `c`. */
  ghost predicate ListingLayout(s: string, h: nat, nl: nat, e0: nat, e1: nat, p: nat, c: nat, u1: nat, z: nat) {
    && CommentLayout(s, h, nl, e0) && TailLayout(s, e0, e1, p, c, u1, z)
    && NoHashBefore(s, h)
  }

  /** No `#` before position `h`. */
  ghost predicate NoHashBefore(s: string, h: nat) {
    forall k | 0 <= k < h && k < |s| :: s[k] != '#'
  }

  /** The comment line from `h` to the newline `nl`, then blanks and `location ` up to `e0`. */
  ghost predicate CommentLayout(s: string, h: nat, nl: nat, e0: nat) {
    && h + 2 <= nl && nl + 10 <= e0 < |s|
    && OccursAt(s, "# ", h) && AllIn(NoneOf("\n"), s, h + 2, nl) && s[nl] == '\n'
    && AllIn(Space, s, nl + 1, e0 - 9) && OccursAt(s, "location ", e0 - 9)
  }

  /** The endpoint `[e0, e1)`, ` {`, and the `proxy_pass` line inside the block ending at `z`. */
  ghost predicate TailLayout(s: string, e0: nat, e1: nat, p: nat, c: nat, u1: nat, z: nat) {
    && e0 < e1 && e1 + 2 <= p && p + 11 < c && c + 3 < u1 && u1 <= z < |s|
    && AllIn(NonSpace, s, e0, e1) && OccursAt(s, " {", e1)
    && AllIn(NoneOf("}"), s, e1 + 2, z) && s[z] == '}'
    && OccursAt(s, "proxy_pass ", p) && AllIn(NonSpace, s, p + 11, c) && AllIn(NoneOf(":"), s, p + 11, c)
    && OccursAt(s, "://", c)
    && AllIn(NoneOf("/;"), s, c + 3, u1) && s[u1] == ';'
    && (forall k | c < k < |s| :: s[k] != ':')
  }

  /** The rest of the block is taken up to its first `}`. */
  lemma ToBraceMatch(s: string, i: nat, z: nat)
    requires i <= z < |s| && AllIn(NoneOf("}"), s, i, z) && s[z] == '}'
    ensures MatchFrom(ToBrace(), s, i) == Some(Hit(z + 1, []))
  {
    assert s[z..z + 1] == "}";
    assert MatchFrom(Done, s, z + 1) == Some(Hit(z + 1, []));
    LitThen("}", Done, s, z, z + 1);
    RunThen(NoneOf("}"), 0, Then(Lit("}"), Done), s, i, z, Hit(z + 1, []));
  }

  /** The upstream group takes everything up to the `;`. */
  lemma UpstreamMatch(s: string, u0: nat, u1: nat, tail: Pat, end: nat)
    requires u0 < u1 < |s| && AllIn(NoneOf("/;"), s, u0, u1) && s[u1] == ';'
    requires MatchFrom(tail, s, u1) == Some(Hit(end, []))
    ensures MatchFrom(UpstreamThen(tail), s, u0) == Some(Hit(end, [u0, u1]))
  {
    GroupThen(NoneOf("/;"), 1, tail, s, u0, u1, Hit(end, []));
    MarksAlone(u0, u1);
  }

  lemma MarksAlone(a: nat, b: nat)
    ensures [a, b] + [] == [a, b]
  {
  }

  /** A scheme without colons and its `://` lead to `next`. */
  lemma SchemeMatch(s: string, i: nat, c: nat, next: Pat, hit: Hit)
    requires i < c && c + 3 <= |s| && AllIn(NoneOf(":"), s, i, c) && OccursAt(s, "://", c)
    requires MatchFrom(next, s, c + 3) == Some(hit)
    ensures MatchFrom(Then(Rep(NoneOf(":"), 1), Then(Lit("://"), next)), s, i) == Some(hit)
  {
    MatchLitStep("://", next, s, c);
    OccursAtChar(s, "://", c, 0);
    RunThen(NoneOf(":"), 1, Then(Lit("://"), next), s, i, c, hit);
  }

  /** `proxy_pass` and one blank lead to `scheme`. */
  lemma ProxyPassWordMatch(s: string, p: nat, scheme: Pat, hit: Hit)
    requires OccursAt(s, "proxy_pass ", p) && p + 11 < |s| && !IsSpace(s[p + 11])
    requires MatchFrom(scheme, s, p + 11) == Some(hit)
    ensures MatchFrom(Then(Lit("proxy_pass"), Then(Rep(Space, 1), scheme)), s, p) == Some(hit)
  {
    OccursAtChar(s, "proxy_pass ", p, 10);
    RunThen(Space, 1, scheme, s, p + 10, p + 11, hit);
    OccursSplit(s, "proxy_pass", " ", p);
    MatchLitStep("proxy_pass", Then(Rep(Space, 1), scheme), s, p);
  }

  /** `proxy_pass`, one blank and a scheme lead to what follows the `://`. */
  lemma ProxyPassMatch(s: string, p: nat, c: nat, next: Pat, hit: Hit)
    requires p + 11 < c && c + 3 <= |s|
    requires OccursAt(s, "proxy_pass ", p) && AllIn(NonSpace, s, p + 11, c) && AllIn(NoneOf(":"), s, p + 11, c)
    requires OccursAt(s, "://", c) && MatchFrom(next, s, c + 3) == Some(hit)
    ensures MatchFrom(ProxyPassThen(next), s, p) == Some(hit)
  {
    SchemeMatch(s, p + 11, c, next, hit);
    assert InClass(s[p + 11], NonSpace);
    ProxyPassWordMatch(s, p, Then(Rep(NoneOf(":"), 1), Then(Lit("://"), next)), hit);
  }

  /** A match of the `proxy_pass` part leaves blanks, then the colon of its `://`. */
  lemma ProxyPassColon(s: string, q: nat, next: Pat) returns (m1: nat, m2: nat)
    requires q <= |s| && MatchFrom(ProxyPassThen(next), s, q).Some?
    ensures q + 11 <= m1 < m2 < |s| && AllIn(Space, s, q + 10, m1) && AllIn(NoneOf(":"), s, m1, m2)
    ensures s[m2] == ':'
  {
    var h := MatchFrom(ProxyPassThen(next), s, q).value;
    var scheme := Then(Rep(NoneOf(":"), 1), Then(Lit("://"), next));
    MatchSound(ProxyPassThen(next), s, q);
    assert Accepts(Then(Rep(Space, 1), scheme), s, q + 10, h.end, h.marks);
    m1 := BlanksAccepted(s, q + 10, scheme, h.end, h.marks);
    m2 := SchemeAccepted(s, m1, next, h.end, h.marks);
  }

  /** An accepted `\s+` ends at some `m1` after which `scheme` is accepted. */
  lemma BlanksAccepted(s: string, i: nat, scheme: Pat, j: nat, ms: seq<nat>) returns (m1: nat)
    requires Accepts(Then(Rep(Space, 1), scheme), s, i, j, ms)
    ensures i + 1 <= m1 <= j <= |s| && AllIn(Space, s, i, m1) && Accepts(scheme, s, m1, j, ms)
  {
    m1 :| i + 1 <= m1 <= j && AllIn(Space, s, i, m1) && Accepts(scheme, s, m1, j, ms);
  }

  /** An accepted `[^:]+://` puts a colon at its end `m2`. */
  lemma SchemeAccepted(s: string, m1: nat, next: Pat, j: nat, ms: seq<nat>) returns (m2: nat)
    requires Accepts(Then(Rep(NoneOf(":"), 1), Then(Lit("://"), next)), s, m1, j, ms)
    ensures m1 < m2 < |s| && AllIn(NoneOf(":"), s, m1, m2) && s[m2] == ':'
  {
    m2 :| m1 + 1 <= m2 <= j && AllIn(NoneOf(":"), s, m1, m2) && Accepts(Then(Lit("://"), next), s, m2, j, ms);
    OccursAtChar(s, "://", m2, 0);
  }

  /** Past the real `proxy_pass`, no other one can be followed by a blank and a `://`: the
      first colon after it is the one of the scheme, and the scheme has no blanks. */
  lemma NoProxyPassAfter(s: string, p: nat, c: nat, q: nat, next: Pat)
    requires p + 11 < c < |s| && p < q <= |s|
    requires AllIn(NonSpace, s, p + 11, c) && AllIn(NoneOf(":"), s, p + 11, c) && s[c] == ':'
    requires forall k | c < k < |s| :: s[k] != ':'
    ensures MatchFrom(ProxyPassThen(next), s, q).None?
  {
    if MatchFrom(ProxyPassThen(next), s, q).Some? {
      var m1, m2 := ProxyPassColon(s, q, next);
      ColonIsScheme(s, p, c, q, m1, m2);
    }
  }

  /** The colon a later `proxy_pass` needs cannot be found: its blanks start inside the scheme
      or after the colon of `://`, and no colon follows that one. */
  lemma ColonIsScheme(s: string, p: nat, c: nat, q: nat, m1: nat, m2: nat)
    requires p + 11 < c < |s| && p < q && q + 11 <= m1 < m2 < |s|
    requires AllIn(NonSpace, s, p + 11, c) && AllIn(NoneOf(":"), s, p + 11, c) && s[c] == ':'
    requires forall k | c < k < |s| :: s[k] != ':'
    requires AllIn(Space, s, q + 10, m1) && AllIn(NoneOf(":"), s, m1, m2)
    ensures IsSpace(s[q + 10])
    ensures s[m2] != ':'
  {
  }

  /** The `[^}]*` before `pp` gives back characters until `pp` can start at `p`, its last chance before the `}`. */
  lemma BodyMatch(s: string, b: nat, p: nat, z: nat, pp: Pat, hit: Hit)
    requires b <= p <= z < |s| && AllIn(NoneOf("}"), s, b, z) && s[z] == '}'
    requires MatchFrom(pp, s, p) == Some(hit) && forall q | p < q <= z :: MatchFrom(pp, s, q).None?
    ensures MatchFrom(Then(Rep(NoneOf("}"), 0), pp), s, b) == Some(hit)
  {
    RunExact(NoneOf("}"), s, b, z);
    MatchBacktrack(NoneOf("}"), 0, pp, s, b, p);
  }

  /** One blank and `{` lead to `body`. */
  lemma BraceMatch(s: string, e1: nat, body: Pat, hit: Hit)
    requires e1 + 2 <= |s| && OccursAt(s, " {", e1) && MatchFrom(body, s, e1 + 2) == Some(hit)
    ensures MatchFrom(Then(Rep(Space, 0), Then(Lit("{"), body)), s, e1) == Some(hit)
  {
    OccursSplit(s, " ", "{", e1);
    MatchLitStep("{", body, s, e1 + 1);
    OccursAtChar(s, " {", e1, 1);
    OccursAtChar(s, " {", e1, 0);
    RunThen(Space, 0, Then(Lit("{"), body), s, e1, e1 + 1, hit);
  }

  /** The endpoint group, its ` {` and the block body up to the `proxy_pass` part. */
  lemma EndpointMatch(s: string, e0: nat, e1: nat, p: nat, z: nat, pp: Pat, end: nat, u0: nat, u1: nat)
    requires e0 < e1 && e1 + 2 <= p <= z < |s|
    requires AllIn(NonSpace, s, e0, e1) && OccursAt(s, " {", e1) && AllIn(NoneOf("}"), s, e1 + 2, z) && s[z] == '}'
    requires MatchFrom(pp, s, p) == Some(Hit(end, [u0, u1])) && forall q | p < q <= z :: MatchFrom(pp, s, q).None?
    ensures MatchFrom(EndpointThen(pp), s, e0) == Some(Hit(end, [e0, e1, u0, u1]))
  {
    var body := Then(Rep(NoneOf("}"), 0), pp);
    BodyMatch(s, e1 + 2, p, z, pp, Hit(end, [u0, u1]));
    BraceMatch(s, e1, body, Hit(end, [u0, u1]));
    OccursAtChar(s, " {", e1, 0);
    RunExact(NonSpace, s, e0, e1);
    MatchGroupRun(NonSpace, 1, Then(Rep(Space, 0), Then(Lit("{"), body)), s, e0, e1 - e0);
    MarksInPair(e0, e1, u0, u1);
  }

  lemma MarksInPair(a: nat, b: nat, c: nat, d: nat)
    ensures [a, b] + [c, d] == [a, b, c, d]
  {
  }

  /** `location`, then at least one blank, lead to `eg`. */
  lemma LocationMatch(s: string, loc: nat, eg: Pat, end: nat, marks: seq<nat>)
    requires OccursAt(s, "location ", loc) && loc + 9 < |s| && !IsSpace(s[loc + 9])
    requires MatchFrom(eg, s, loc + 9) == Some(Hit(end, marks))
    ensures MatchFrom(Then(Lit("location"), Then(Rep(Space, 1), eg)), s, loc) == Some(Hit(end, marks))
  {
    OccursAtChar(s, "location ", loc, 8);
    RunThen(Space, 1, eg, s, loc + 8, loc + 9, Hit(end, marks));
    OccursSplit(s, "location", " ", loc);
    MatchLitStep("location", Then(Rep(Space, 1), eg), s, loc);
  }

  /** A newline and the blanks that indent the next line lead to `located`. */
  lemma IndentMatch(s: string, nl: nat, loc: nat, located: Pat, end: nat, marks: seq<nat>)
    requires nl < loc < |s| && s[nl] == '\n' && AllIn(Space, s, nl + 1, loc) && !IsSpace(s[loc])
    requires MatchFrom(located, s, loc) == Some(Hit(end, marks))
    ensures MatchFrom(Then(Lit("\n"), Then(Rep(Space, 0), located)), s, nl) == Some(Hit(end, marks))
  {
    RunThen(Space, 0, located, s, nl + 1, loc, Hit(end, marks));
    assert s[nl..nl + 1] == "\n";
    MatchLitStep("\n", Then(Rep(Space, 0), located), s, nl);
  }

  /** `# ` and the rest of its line, as the comment group, lead to `indented`. */
  lemma CommentLineMatch(s: string, h: nat, nl: nat, indented: Pat, end: nat, marks: seq<nat>)
    requires h + 2 <= nl < |s| && OccursAt(s, "# ", h) && AllIn(NoneOf("\n"), s, h + 2, nl) && s[nl] == '\n'
    requires MatchFrom(indented, s, nl) == Some(Hit(end, marks))
    ensures MatchFrom(Then(Lit("# "), Then(Mark, Then(Rep(NoneOf("\n"), 0), Then(Mark, indented)))), s, h)
            == Some(Hit(end, [h + 2, nl] + marks))
  {
    GroupThen(NoneOf("\n"), 0, indented, s, h + 2, nl, Hit(end, marks));
    MatchLitStep("# ", Then(Mark, Then(Rep(NoneOf("\n"), 0), Then(Mark, indented))), s, h);
  }

  /** The comment group, its newline, blanks and `location` with blanks lead to `eg`. */
  lemma CommentMatch(s: string, h: nat, nl: nat, e0: nat, eg: Pat, end: nat, marks: seq<nat>)
    requires h + 2 <= nl && nl + 10 <= e0 <= |s|
    requires OccursAt(s, "# ", h) && AllIn(NoneOf("\n"), s, h + 2, nl) && s[nl] == '\n'
    requires AllIn(Space, s, nl + 1, e0 - 9) && OccursAt(s, "location ", e0 - 9)
    requires e0 < |s| && !IsSpace(s[e0]) && MatchFrom(eg, s, e0) == Some(Hit(end, marks))
    ensures MatchFrom(CommentThen(eg), s, h) == Some(Hit(end, [h + 2, nl] + marks))
  {
    IndentedLocation(s, nl, e0, eg, end, marks);
    CommentLineMatch(s, h, nl, Then(Lit("\n"), Then(Rep(Space, 0), Then(Lit("location"), Then(Rep(Space, 1), eg)))),
                     end, marks);
  }

  /** The newline, the indent and `location` lead to the endpoint at `e0`. */
  lemma IndentedLocation(s: string, nl: nat, e0: nat, eg: Pat, end: nat, marks: seq<nat>)
    requires nl + 10 <= e0 < |s| && s[nl] == '\n'
    requires AllIn(Space, s, nl + 1, e0 - 9) && OccursAt(s, "location ", e0 - 9)
    requires !IsSpace(s[e0]) && MatchFrom(eg, s, e0) == Some(Hit(end, marks))
    ensures MatchFrom(Then(Lit("\n"), Then(Rep(Space, 0), Then(Lit("location"), Then(Rep(Space, 1), eg)))), s, nl)
            == Some(Hit(end, marks))
  {
    LocationMatch(s, e0 - 9, eg, end, marks);
    OccursAtChar(s, "location ", e0 - 9, 0);
    IndentMatch(s, nl, e0 - 9, Then(Lit("location"), Then(Rep(Space, 1), eg)), end, marks);
  }

  /** No `proxy_pass` after the one at `p` lets the pattern finish. */
  lemma NoneAfterProxyPass(s: string, p: nat, c: nat, z: nat, ug: Pat)
    requires p + 11 < c < |s| && z <= |s|
    requires AllIn(NonSpace, s, p + 11, c) && AllIn(NoneOf(":"), s, p + 11, c) && s[c] == ':'
    requires forall k | c < k < |s| :: s[k] != ':'
    ensures forall q | p < q <= z :: MatchFrom(ProxyPassThen(ug), s, q).None?
  {
    forall q | p < q <= z ensures MatchFrom(ProxyPassThen(ug), s, q).None? {
      NoProxyPassAfter(s, p, c, q, ug);
    }
  }

  /** From the endpoint to where the upstream part `ug` ends: the endpoint and upstream groups. */
  lemma EndpointToBrace(s: string, e0: nat, e1: nat, p: nat, c: nat, u1: nat, z: nat, ug: Pat)
    requires TailLayout(s, e0, e1, p, c, u1, z) && MatchFrom(ug, s, c + 3) == Some(Hit(z + 1, [c + 3, u1]))
    ensures MatchFrom(EndpointThen(ProxyPassThen(ug)), s, e0) == Some(Hit(z + 1, [e0, e1, c + 3, u1]))
  {
    ProxyPassMatch(s, p, c, ug, Hit(z + 1, [c + 3, u1]));
    OccursAtChar(s, "://", c, 0);
    NoneAfterProxyPass(s, p, c, z, ug);
    EndpointMatch(s, e0, e1, p, z, ProxyPassThen(ug), z + 1, c + 3, u1);
  }

  /** A search starts with a match at `h` when no earlier position holds a `#`. */
  lemma FirstComment(s: string, h: nat, eg: Pat, hit: Hit)
    requires h <= |s| && NoHashBefore(s, h) && MatchFrom(CommentThen(eg), s, h) == Some(hit)
    ensures SearchFrom(CommentThen(eg), s, 0) == Some(Found(h, hit.end, hit.marks))
  {
    LitLedFirst("# ", CommentThen(eg).tail, s, h, hit);
  }

  /** The search finds the comment part first when `eg` matches at the endpoint. */
  lemma CommentOfLayout(s: string, h: nat, nl: nat, e0: nat, e1: nat, eg: Pat, end: nat, marks: seq<nat>)
    requires CommentLayout(s, h, nl, e0) && NoHashBefore(s, h) && e0 < e1 <= |s| && AllIn(NonSpace, s, e0, e1)
    requires MatchFrom(eg, s, e0) == Some(Hit(end, marks))
    ensures SearchFrom(CommentThen(eg), s, 0) == Some(Found(h, end, [h + 2, nl] + marks))
  {
    assert InClass(s[e0], NonSpace);
    CommentMatch(s, h, nl, e0, eg, end, marks);
    FirstComment(s, h, eg, Hit(end, [h + 2, nl] + marks));
  }

  lemma MarksInFront(a: nat, b: nat, c: nat, d: nat, e: nat, f: nat)
    ensures [a, b] + [c, d, e, f] == [a, b, c, d, e, f]
  {
  }

  /** The search finds everything from the comment up to the upstream part `ug` first. */
  lemma ListingFindsWith(s: string, h: nat, nl: nat, e0: nat, e1: nat, p: nat, c: nat, u1: nat, z: nat, ug: Pat)
    requires ListingLayout(s, h, nl, e0, e1, p, c, u1, z)
    requires MatchFrom(ug, s, c + 3) == Some(Hit(z + 1, [c + 3, u1]))
    ensures SearchFrom(CommentThen(EndpointThen(ProxyPassThen(ug))), s, 0)
            == Some(Found(h, z + 1, [h + 2, nl, e0, e1, c + 3, u1]))
  {
    assert CommentLayout(s, h, nl, e0) && TailLayout(s, e0, e1, p, c, u1, z);
    EndpointToBrace(s, e0, e1, p, c, u1, z, ug);
    MarksInFront(h + 2, nl, e0, e1, c + 3, u1);
    CommentOfLayout(s, h, nl, e0, e1, EndpointThen(ProxyPassThen(ug)), z + 1, [e0, e1, c + 3, u1]);
  }

  /** The upstream group runs to the `;` and the match ends at the first `}`. */
  lemma UpstreamToBrace(s: string, c: nat, u1: nat, z: nat)
    requires c + 3 < u1 <= z < |s| && AllIn(NoneOf("/;"), s, c + 3, u1) && s[u1] == ';'
    requires AllIn(NoneOf("}"), s, u1, z) && s[z] == '}'
    ensures MatchFrom(UpstreamThen(ToBrace()), s, c + 3) == Some(Hit(z + 1, [c + 3, u1]))
  {
    ToBraceMatch(s, u1, z);
    UpstreamMatch(s, c + 3, u1, ToBrace(), z + 1);
  }

  /** `re.finditer` starts with the match from the first `#` to the first `}` after `proxy_pass`. */
  lemma ListingFindsLayout(s: string, h: nat, nl: nat, e0: nat, e1: nat, p: nat, c: nat, u1: nat, z: nat)
    requires ListingLayout(s, h, nl, e0, e1, p, c, u1, z)
    ensures SearchFrom(ListingPattern(), s, 0) == Some(Found(h, z + 1, [h + 2, nl, e0, e1, c + 3, u1]))
  {
    UpstreamToBrace(s, c, u1, z);
    ListingFindsWith(s, h, nl, e0, e1, p, c, u1, z, UpstreamThen(ToBrace()));
  }

  /** Where the pieces of a block stand: the comment's newline, the endpoint `[e0, e1)`,
      `proxy_pass`, the scheme's `:`, the `;` after the upstream name, and the closing `}`. */
  datatype Spots = Spots(nl: nat, e0: nat, e1: nat, p: nat, c: nat, u1: nat, z: nat)

  /** `b` has the layout the listing pattern reads, with the comment `cm` after the first line's
      indentation, the endpoint `e` after the `location` keyword and `upstream` after the
      scheme's `://`; the text ends with the block's `}`. */
  ghost predicate BlockShape(b: string, cm: string, e: string, upstream: string, at: Spots) {
    ListingLayout(b, 17, at.nl, at.e0, at.e1, at.p, at.c, at.u1, at.z) && Placed(b, cm, e, upstream, at)
  }

  /** The comment, the endpoint and the upstream name stand where `at` says. */
  ghost predicate Placed(b: string, cm: string, e: string, upstream: string, at: Spots) {
    && at.z + 1 == |b| && at.nl == 17 + |cm| && at.e0 == at.nl + 18 && at.e1 == at.e0 + |e|
    && at.u1 == at.c + 3 + |upstream|
    && OccursAt(b, cm, 17) && OccursAt(b, e, at.e0) && OccursAt(b, upstream, at.c + 3)
  }

  lemma ListingGroups(b: string)
    requires SearchFrom(ListingPattern(), b, 0).Some?
    ensures GroupsIn(b, SearchFrom(ListingPattern(), b, 0).value, 3)
  {
    ListingPatternShape();
    SearchGroups(ListingPattern(), b, 3);
  }

  /** Where the listing pattern's first match starts, ends and puts its marks when the comment
      stands after a block's blank first line. */
  lemma ShapeFinds(b: string, nl: nat, e0: nat, e1: nat, p: nat, c: nat, u1: nat, z: nat)
    requires ListingLayout(b, 17, nl, e0, e1, p, c, u1, z)
    ensures SearchFrom(ListingPattern(), b, 0) == Some(Found(17, z + 1, [17 + 2, nl, e0, e1, c + 3, u1]))
  {
    ListingFindsLayout(b, 17, nl, e0, e1, p, c, u1, z);
  }

  /** The groups of that match are the comment without `# `, the endpoint and the upstream name. */
  lemma ShapeGroups(b: string, cm: string, e: string, upstream: string, at: Spots, f: Found)
    requires Placed(b, cm, e, upstream, at) && |cm| >= 2
    requires f == Found(17, at.z + 1, [17 + 2, at.nl, at.e0, at.e1, at.c + 3, at.u1]) && GroupsIn(b, f, 3)
    ensures f.end == |b|
    ensures Group(b, f, 0) == cm[2..] && Group(b, f, 1) == e && Group(b, f, 2) == upstream
  {
    assert b[19..17 + |cm|] == cm[2..] by {
      assert b[17..17 + |cm|] == cm;
    }
  }

  /** The listing pattern reads a block-shaped text back. */
  lemma ShapeRead(b: string, cm: string, e: string, upstream: string, at: Spots)
    requires BlockShape(b, cm, e, upstream, at) && |cm| >= 2
    ensures var f := SearchFrom(ListingPattern(), b, 0);
            && f.Some? && f.value.start == 17 && f.value.end == |b| && GroupsIn(b, f.value, 3)
            && Group(b, f.value, 0) == cm[2..] && Group(b, f.value, 1) == e && Group(b, f.value, 2) == upstream
  {
    ShapeFinds(b, at.nl, at.e0, at.e1, at.p, at.c, at.u1, at.z);
    ListingGroups(b);
    ShapeGroups(b, cm, e, upstream, at, SearchFrom(ListingPattern(), b, 0).value);
  }
}
