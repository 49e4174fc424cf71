/**
  `list_proxies` (llm_proxy_cli/nginx_manager.py, lines 205-250) as functions of the
  configuration text: every location block preceded by a comment line is read back as an
  endpoint, the URL it forwards to and its name; the baseline `/openai/` rule and `/health`
  are skipped.
*/
module Listing {
  import opened Regex
  import opened Text
  import opened Patterns
  import opened Blocks

  /** One entry of the listing: the `endpoint`, `target` and `name` keys of the dictionary. */
  datatype Proxy = Proxy(endpoint: string, target: string, name: Option<string>)

  /** Endpoints the listing never reports. */
  predicate Reserved(e: string) {
    e == "/openai/" || e == "/health"
  }

  /** The marks of a match can be read as `n` groups of `c`. */
  predicate GroupsIn(c: string, f: Found, n: nat) {
    |f.marks| == 2 * n && Ordered(f.marks, 0, |c|)
  }

  /** Group `k` (counting from 0) of a match. */
  function Group(c: string, f: Found, k: nat): string
    requires 2 * k + 1 < |f.marks| && Ordered(f.marks, 0, |c|)
  {
    c[f.marks[2 * k]..f.marks[2 * k + 1]]
  }

  /** Every match `re.finditer` reports can be read as the pattern's groups. */
  lemma FindAllGroups(p: Pat, c: string, n: nat)
    requires MinLen(p) > 0 && MarkCount(p) == 2 * n
    ensures AllGroupsIn(c, FindAll(p, c, 0), n)
  {
    var ms := FindAll(p, c, 0);
    forall k | 0 <= k < |ms| ensures GroupsIn(c, ms[k], n) {
      MatchOrdered(p, c, ms[k].start);
    }
  }

  predicate AllGroupsIn(c: string, ms: seq<Found>, n: nat) {
    forall k | 0 <= k < |ms| :: GroupsIn(c, ms[k], n)
  }

  /** So can the match `re.search` reports. */
  lemma SearchGroups(p: Pat, c: string, n: nat)
    requires MarkCount(p) == 2 * n && SearchFrom(p, c, 0).Some?
    ensures GroupsIn(c, SearchFrom(p, c, 0).value, n)
  {
    MatchOrdered(p, c, SearchFrom(p, c, 0).value.start);
  }

  /** Line 243: the comment is the name unless it starts with `Proxy for`. */
  function NameOf(comment: string): (r: Option<string>)
    ensures r.None? <==> StartsWith(comment, "Proxy for")
    ensures r.Some? ==> r.value == comment
  {
    if StartsWith(comment, "Proxy for") then None else Some(comment)
  }

  /** Lines 233-236 as written: `https://` with every `:443` deleted when the server text
      contains `:443` anywhere, `http://` and the server text otherwise. */
  function FallbackTargetAsWritten(server: string): string {
    if Contains(server, ":443") then "https://" + ReplaceAll(server, ":443", "") else "http://" + server
  }

  /** The reconstruction the comment on line 232 describes: `https` exactly when the port is
      443, and then without the port. */
  function FallbackTarget(server: string): (r: string)
    ensures StartsWith(r, "https://") || StartsWith(r, "http://")
  {
    if |server| >= 4 && server[|server| - 4..] == ":443" then "https://" + server[..|server| - 4]
    else "http://" + server
  }

  /** Which reconstruction of a server address the listing applies: the one on lines 233-236
      or the one the comment on line 232 describes. */
  datatype PortRule = AsWritten | Intended

  function Fallback(rule: PortRule, server: string): string {
    match rule
    case AsWritten => FallbackTargetAsWritten(server)
    case Intended => FallbackTarget(server)
  }

  /** Lines 218-238: the URL an upstream forwards to.  The URL in the annotation above
      `upstream <name>` when there is one; else one rebuilt from its first `server`; else
      `upstream://<name>`. */
  function TargetFor(c: string, upstream: string, rule: PortRule): string {
    match SearchFrom(AnnotationPattern(upstream), c, 0)
    case Some(f) =>
      AnnotationPatternMarks(upstream);
      SearchGroups(AnnotationPattern(upstream), c, 1);
      Group(c, f, 0)
    case None =>
      match SearchFrom(ServerPattern(upstream), c, 0)
      case Some(g) =>
        ServerPatternMarks(upstream);
        SearchGroups(ServerPattern(upstream), c, 1);
        Fallback(rule, Group(c, g, 0))
      case None => "upstream://" + upstream
  }

  lemma AnnotationPatternMarks(upstream: string)
    ensures MarkCount(AnnotationPattern(upstream)) == 2
  {
    var q := Then(Lit(upstream), Done);
    assert MarkCount(q) == 0;
    assert MarkCount(Then(Rep(Space, 1), q)) == 0;
    var l := UpstreamLineBreak(upstream);
    assert MarkCount(l.tail.tail) == 0;
    assert MarkCount(l) == 0;
    assert MarkCount(Then(Mark, l)) == 1;
    assert MarkCount(Then(Rep(NoneOf("\n"), 1), Then(Mark, l))) == 1;
  }

  lemma ServerPatternMarks(upstream: string)
    ensures MarkCount(ServerPattern(upstream)) == 2
  {
    var p := ServerPattern(upstream);
    assert MarkCount(p.tail.tail.tail) == 2;
    assert MarkCount(p.tail.tail) == 2;
  }

  lemma ListingPatternShape()
    ensures MinLen(ListingPattern()) > 0 && MarkCount(ListingPattern()) == 6
  {
    var p := ListingPattern();
    assert MarkCount(p.tail.tail.tail.tail.tail.tail.tail.tail.tail.tail.tail.tail.tail.tail.tail.tail.tail.tail.tail.tail) == 1;
    assert MarkCount(p.tail.tail.tail.tail.tail.tail.tail.tail.tail.tail.tail.tail.tail.tail.tail.tail) == 2;
    assert MarkCount(p.tail.tail.tail.tail.tail.tail.tail.tail.tail.tail) == 3;
    assert MarkCount(p.tail.tail.tail.tail.tail.tail) == 4;
    assert MarkCount(p.tail.tail.tail) == 5;
    assert MinLen(p) >= |"# "|;
  }

  /** The entry for one match of the listing pattern; groups: comment, endpoint, upstream. */
  function EntryOf(c: string, f: Found, rule: PortRule): Proxy
    requires GroupsIn(c, f, 3)
  {
    Proxy(Group(c, f, 1), TargetFor(c, Group(c, f, 2), rule), NameOf(Group(c, f, 0)))
  }

  /** The entry of every match, reserved endpoints included. */
  function Candidates(c: string, ms: seq<Found>, rule: PortRule): (r: seq<Proxy>)
    requires AllGroupsIn(c, ms, 3)
    ensures |r| == |ms|
  {
    seq(|ms|, k requires 0 <= k < |ms| => EntryOf(c, ms[k], rule))
  }

  /** The filter of the loop of lines 215-244: the entries in order, without those whose
      endpoint is reserved. */
  function Unreserved(xs: seq<Proxy>): (r: seq<Proxy>)
    ensures |r| <= |xs|
    ensures forall k | 0 <= k < |r| :: !Reserved(r[k].endpoint)
  {
    if xs == [] then []
    else
      var front := Unreserved(xs[..|xs| - 1]);
      if Reserved(xs[|xs| - 1].endpoint) then front else front + [xs[|xs| - 1]]
  }

  /** Every entry the filter keeps is one of its inputs. */
  lemma {:induction false} UnreservedOrigin(xs: seq<Proxy>, k: nat) returns (j: nat)
    requires k < |Unreserved(xs)|
    ensures j < |xs| && Unreserved(xs)[k] == xs[j]
    decreases |xs|
  {
    var front := xs[..|xs| - 1];
    if k < |Unreserved(front)| {
      j := UnreservedOrigin(front, k);
    } else {
      j := |xs| - 1;
    }
  }

  /** Every input with an endpoint that is not reserved is kept. */
  lemma {:induction false} UnreservedListed(xs: seq<Proxy>, j: nat) returns (k: nat)
    requires j < |xs| && !Reserved(xs[j].endpoint)
    ensures k < |Unreserved(xs)| && Unreserved(xs)[k] == xs[j]
    decreases |xs|
  {
    var front := xs[..|xs| - 1];
    if j < |xs| - 1 {
      k := UnreservedListed(front, j);
    } else {
      k := |Unreserved(front)|;
    }
  }

  /** The loop of lines 215-244 over the matches `ms`, in order. */
  function Entries(c: string, ms: seq<Found>, rule: PortRule): (r: seq<Proxy>)
    requires AllGroupsIn(c, ms, 3)
    ensures |r| <= |ms|
    ensures forall k | 0 <= k < |r| :: !Reserved(r[k].endpoint)
  {
    Unreserved(Candidates(c, ms, rule))
  }

  /** One more match extends the entries by at most its own entry. */
  lemma EntriesStep(c: string, ms: seq<Found>, i: nat, rule: PortRule)
    requires i < |ms| && AllGroupsIn(c, ms, 3)
    ensures AllGroupsIn(c, ms[..i], 3) && AllGroupsIn(c, ms[..i + 1], 3) && GroupsIn(c, ms[i], 3)
    ensures Entries(c, ms[..i + 1], rule) == if Reserved(Group(c, ms[i], 1)) then Entries(c, ms[..i], rule)
      else Entries(c, ms[..i], rule) + [EntryOf(c, ms[i], rule)]
  {
    var xs := Candidates(c, ms[..i + 1], rule);
    assert xs[..i] == Candidates(c, ms[..i], rule);
    assert xs[i] == EntryOf(c, ms[i], rule);
  }

  /** Lines 212-213: the successive matches of the listing pattern, `re.findall`. */
  function ListingMatches(c: string): (ms: seq<Found>)
    ensures AllGroupsIn(c, ms, 3)
  {
    ListingPatternShape();
    FindAllGroups(ListingPattern(), c, 3);
    FindAll(ListingPattern(), c, 0)
  }

  /** `list_proxies()`: the entries for every match of the listing pattern. */
  function ProxyList(c: string): (r: seq<Proxy>)
    ensures forall k | 0 <= k < |r| :: !Reserved(r[k].endpoint)
  {
    Entries(c, ListingMatches(c), AsWritten)
  }

  /** The listing with the server address read back as the comment on line 232 intends. */
  function ProxyListIntended(c: string): (r: seq<Proxy>)
    ensures forall k | 0 <= k < |r| :: !Reserved(r[k].endpoint)
  {
    Entries(c, ListingMatches(c), Intended)
  }

  /** Every entry is the entry of one of the matches. */
  lemma EntryOrigin(c: string, ms: seq<Found>, k: nat, rule: PortRule) returns (j: nat)
    requires AllGroupsIn(c, ms, 3) && k < |Entries(c, ms, rule)|
    ensures j < |ms| && GroupsIn(c, ms[j], 3) && Entries(c, ms, rule)[k] == EntryOf(c, ms[j], rule)
  {
    j := UnreservedOrigin(Candidates(c, ms, rule), k);
  }

  /** Every match with an endpoint that is not reserved gives an entry. */
  lemma EntryListed(c: string, ms: seq<Found>, j: nat, rule: PortRule) returns (k: nat)
    requires AllGroupsIn(c, ms, 3) && j < |ms| && !Reserved(Group(c, ms[j], 1))
    ensures k < |Entries(c, ms, rule)| && Entries(c, ms, rule)[k] == EntryOf(c, ms[j], rule)
  {
    var xs := Candidates(c, ms, rule);
    assert xs[j].endpoint == Group(c, ms[j], 1);
    k := UnreservedListed(xs, j);
  }

  /** An endpoint is listed exactly when some match has it and it is not reserved. */
  lemma EntriesListExactly(c: string, ms: seq<Found>, e: string, rule: PortRule)
    requires AllGroupsIn(c, ms, 3)
    ensures (exists k | 0 <= k < |Entries(c, ms, rule)| :: Entries(c, ms, rule)[k].endpoint == e)
            <==> !Reserved(e) && exists j | 0 <= j < |ms| :: Group(c, ms[j], 1) == e
  {
    var r := Entries(c, ms, rule);
    if exists k | 0 <= k < |r| :: r[k].endpoint == e {
      var k :| 0 <= k < |r| && r[k].endpoint == e;
      var j := EntryOrigin(c, ms, k, rule);
      assert Group(c, ms[j], 1) == e;
    }
    if !Reserved(e) && exists j | 0 <= j < |ms| :: Group(c, ms[j], 1) == e {
      var j :| 0 <= j < |ms| && Group(c, ms[j], 1) == e;
      var k := EntryListed(c, ms, j, rule);
      assert r[k].endpoint == e;
    }
  }

  /** The listing reports the endpoint of every match that is not reserved, and nothing else. */
  lemma ListedIffMatched(c: string, e: string)
    ensures (exists k | 0 <= k < |ProxyList(c)| :: ProxyList(c)[k].endpoint == e)
            <==> !Reserved(e) && exists j | 0 <= j < |ListingMatches(c)| :: Group(c, ListingMatches(c)[j], 1) == e
  {
    var ms := ListingMatches(c);
    var r := ProxyList(c);
    assert r == Entries(c, ms, AsWritten);
    EntriesListExactly(c, ms, e, AsWritten);
    assert (exists k | 0 <= k < |r| :: r[k].endpoint == e) <==> !Reserved(e) && exists j | 0 <= j < |ms| :: Group(c, ms[j], 1) == e;
  }

  /** Two listings that differ at most in their targets. */
  predicate SameButTargets(xs: seq<Proxy>, ys: seq<Proxy>) {
    |xs| == |ys| && forall k | 0 <= k < |xs| :: xs[k].endpoint == ys[k].endpoint && xs[k].name == ys[k].name
  }

  /** The filter depends on the endpoints alone. */
  lemma {:induction false} UnreservedSameButTargets(xs: seq<Proxy>, ys: seq<Proxy>)
    requires SameButTargets(xs, ys)
    ensures SameButTargets(Unreserved(xs), Unreserved(ys))
    decreases |xs|
  {
    if xs != [] {
      var n := |xs| - 1;
      assert SameButTargets(xs[..n], ys[..n]) by {
        forall k | 0 <= k < n ensures xs[..n][k] == xs[k] && ys[..n][k] == ys[k] { }
      }
      UnreservedSameButTargets(xs[..n], ys[..n]);
    }
  }

  /** The port rule changes nothing but targets: both listings have the same entries in the
      same order, with the same endpoints and names. */
  lemma ListingsDifferInTargetsOnly(c: string)
    ensures SameButTargets(ProxyList(c), ProxyListIntended(c))
  {
    var ms := ListingMatches(c);
    UnreservedSameButTargets(Candidates(c, ms, AsWritten), Candidates(c, ms, Intended));
  }

  /** The name `add_proxy` was given comes back from the comment it wrote, unless it was empty
      or itself starts with `Proxy for`; without a name none comes back. */
  lemma NameRoundTrip(u: Url, name: Option<string>)
    ensures NameOf(CommentText(u, name)[2..])
            == (if HasName(name) && !StartsWith(name.value, "Proxy for") then name else None)
  {
    if HasName(name) {
      assert CommentText(u, name)[2..] == name.value;
    } else {
      assert CommentText(u, name)[2..] == "Proxy for " + u.text;
      assert ("Proxy for " + u.text)[..9] == "Proxy for";
    }
  }

  /** An occurrence stays where it is when text is appended. */
  lemma OccursBefore(s: string, rest: string, t: string, i: nat)
    requires OccursAt(s, t, i)
    ensures OccursAt(s + rest, t, i)
  {
    assert (s + rest)[i..i + |t|] == s[i..i + |t|];
  }

  /** The target of an upstream block `add_proxy` generated is the URL it was given, read back
      from the annotation (for a text that opens with the block). */
  lemma TargetReadBack(u: Url, upstream: string, rest: string, rule: PortRule)
    requires UpstreamBlock(u, upstream).Some?
    requires u.text != [] && NoNewline(u.text)
    requires upstream != [] && !IsSpace(upstream[0])
    ensures TargetFor(UpstreamBlock(u, upstream).value + rest, upstream, rule) == u.text
  {
    var b := UpstreamBlock(u, upstream).value;
    var c := b + rest;
    AnnotationLayout(u, upstream);
    OccursBefore(b, rest, "    ", 0);
    OccursBefore(b, rest, "# Upstream for ", 4);
    OccursBefore(b, rest, u.text, 19);
    OccursBefore(b, rest, "\n    upstream ", 19 + |u.text|);
    OccursBefore(b, rest, upstream, 33 + |u.text|);
    AnnotationFound(c, u.text, upstream);
  }

  /** Four or more digits end in four digits, not in `:443`. */
  lemma LongPortSuffix(h: string, d: string)
    requires |d| >= 4 && forall k | 0 <= k < |d| :: IsDigit(d[k])
    ensures var s := h + ":" + d; s[|s| - 4..] != ":443"
  {
    var s := h + ":" + d;
    assert s[|s| - 4..][0] == d[|d| - 4];
  }

  /** With one or two digits the colon falls among the last four characters. */
  lemma ShortPortSuffix(h: string, d: string)
    requires 1 <= |d| < 3
    ensures var s := h + ":" + d; |s| < 4 || s[|s| - 4..] != ":443"
  {
    var s := h + ":" + d;
    if |s| >= 4 {
      assert s[|s| - 4..][3 - |d|] == s[|h|] == ':';
    }
  }

  /** `<host>:<digits>` ends with `:443` exactly when the digits are `443`. */
  lemma PortSuffix(h: string, d: string)
    requires |d| >= 1 && forall k | 0 <= k < |d| :: IsDigit(d[k])
    ensures var s := h + ":" + d;
            (|s| >= 4 && s[|s| - 4..] == ":443") <==> d == "443"
  {
    var s := h + ":" + d;
    if d == "443" {
      assert s[|s| - 4..] == ":" + d;
    }
    if |s| >= 4 && s[|s| - 4..] == ":443" {
      var t := s[|s| - 4..];
      if |d| >= 4 {
        LongPortSuffix(h, d);
      } else if |d| < 3 {
        ShortPortSuffix(h, d);
      } else {
        assert t == ":" + d;
        assert d == t[1..];
      }
    }
  }

  /** A server address `<host>:<port>` as `_generate_upstream_block` writes it is rebuilt as
      `https://<host>` exactly for port 443 and as `http://<host>:<port>` otherwise. */
  lemma FallbackTargetPort(h: string, n: nat)
    ensures FallbackTarget(h + ":" + Decimal(n))
            == if n == 443 then "https://" + h else "http://" + h + ":" + Decimal(n)
  {
    var d := Decimal(n);
    DecimalIs443(n);
    if n == 443 {
      PortIs443(h, d);
    } else {
      PortNot443(h, d);
    }
  }

  /** `<host>:443` becomes `https://<host>`. */
  lemma PortIs443(h: string, d: string)
    requires d == "443"
    ensures FallbackTarget(h + ":" + d) == "https://" + h
  {
    PortSuffix(h, d);
    HostBeforePort(h, d);
  }

  /** `<host>:<port>` for any other port is kept whole. */
  lemma PortNot443(h: string, d: string)
    requires |d| >= 1 && (forall k | 0 <= k < |d| :: IsDigit(d[k])) && d != "443"
    ensures FallbackTarget(h + ":" + d) == "http://" + h + ":" + d
  {
    PortSuffix(h, d);
    FallbackHttp(h + ":" + d);
  }

  /** Port 443 is written `443`, and no other port is. */
  lemma DecimalIs443(n: nat)
    ensures Decimal(n) == "443" <==> n == 443
  {
    assert Decimal(443) == "443";
    if Decimal(n) == "443" {
      DecimalInjective(n, 443);
    }
  }

  /** Dropping a three-digit port and its colon leaves the host. */
  lemma HostBeforePort(h: string, d: string)
    requires |d| == 3
    ensures var s := h + ":" + d; |s| >= 4 && s[..|s| - 4] == h
  {
    var s := h + ":" + d;
    assert s[..|s| - 4] == h;
  }

  /** `str.replace` leaves a front without the pattern's first character as it is. */
  lemma {:induction false} ReplaceAllKeepsFront(x: string, y: string, pattern: string, replacement: string)
    requires |pattern| > 0 && pattern[0] !in x
    ensures ReplaceAll(x + y, pattern, replacement) == x + ReplaceAll(y, pattern, replacement)
    decreases |x|
  {
    if x == [] {
      assert x + y == y;
    } else {
      var s := x + y;
      assert s[0] == x[0] && s[1..] == x[1..] + y;
      assert x[0] in x;
      assert |pattern| > |s| || s[..|pattern|][0] == s[0];
      assert ReplaceAll(s, pattern, replacement) == [s[0]] + ReplaceAll(s[1..], pattern, replacement);
      ReplaceAllKeepsFront(x[1..], y, pattern, replacement);
      assert [x[0]] + x[1..] == x;
    }
  }

  /** Reading `:443` anywhere in the server text takes a port such as 4431 for 443: the
      target becomes `https` and the host swallows the remaining digits (`example.com:4431`
      gives `https://example.com1`), where the intended reconstruction keeps `http` and the
      port. */
  lemma FallbackTargetMisreadsPort(h: string, x: string)
    requires ':' !in h && x != [] && forall k | 0 <= k < |x| :: IsDigit(x[k])
    ensures FallbackTargetAsWritten(h + ":443" + x) == "https://" + h + x
    ensures FallbackTarget(h + ":443" + x) == "http://" + h + ":443" + x
  {
    DigitsWithoutColon(x);
    AsWrittenDropsPort(h, x);
    IntendedKeepsPort(h, x);
  }

  /** As written, `<host>:443<digits>` loses its `:443`. */
  lemma AsWrittenDropsPort(h: string, x: string)
    requires ':' !in h && ':' !in x
    ensures FallbackTargetAsWritten(h + ":443" + x) == "https://" + h + x
  {
    PortRemoved(h, x);
    AsWrittenHttps(h + ":443" + x, h + x);
  }

  /** The intended reconstruction keeps a port that only starts with 443. */
  lemma IntendedKeepsPort(h: string, x: string)
    requires x != [] && forall k | 0 <= k < |x| :: IsDigit(x[k])
    ensures FallbackTarget(h + ":443" + x) == "http://" + h + ":443" + x
  {
    var s := h + ":443" + x;
    var d := LongerPort(x);
    assert s == h + ":" + d;
    PortSuffix(h, d);
    FallbackHttp(s);
  }

  /** A server text with `:443` in it gives `https://` and the text with `:443` deleted. */
  lemma AsWrittenHttps(s: string, t: string)
    requires Contains(s, ":443") && ReplaceAll(s, ":443", "") == t
    ensures FallbackTargetAsWritten(s) == "https://" + t
  {
  }

  /** A server text that does not end with `:443` is kept whole behind `http://`. */
  lemma FallbackHttp(s: string)
    requires !(|s| >= 4 && s[|s| - 4..] == ":443")
    ensures FallbackTarget(s) == "http://" + s
  {
  }

  /** `443` followed by more digits is a longer run of digits. */
  lemma LongerPort(x: string) returns (d: string)
    requires x != [] && forall k | 0 <= k < |x| :: IsDigit(x[k])
    ensures d == "443" + x && d != "443"
    ensures |d| >= 1 && forall k | 0 <= k < |d| :: IsDigit(d[k])
  {
    d := "443" + x;
    assert |d| > 3;
    forall k | 0 <= k < |d| ensures IsDigit(d[k]) {
      if k >= 3 {
        assert d[k] == x[k - 3];
      }
    }
  }

  lemma DigitsWithoutColon(x: string)
    requires forall k | 0 <= k < |x| :: IsDigit(x[k])
    ensures ':' !in x
  {
    assert forall k | 0 <= k < |x| :: x[k] != ':';
  }

  /** `str.replace(':443', '')` on `<host>:443<rest>` with no other colon. */
  lemma PortRemoved(h: string, x: string)
    requires ':' !in h && ':' !in x
    ensures Contains(h + ":443" + x, ":443")
    ensures ReplaceAll(h + ":443" + x, ":443", "") == h + x
  {
    var t := ":443" + x;
    assert h + ":443" + x == h + t;
    OccursInConcat(h, ":443", x);
    ReplaceAllKeepsFront(h, t, ":443", "");
    ReplaceAllAtFront(x);
  }

  lemma ReplaceAllAtFront(x: string)
    requires ':' !in x
    ensures ReplaceAll(":443" + x, ":443", "") == x
  {
    var t := ":443" + x;
    assert t[..4] == ":443" && t[4..] == x;
    assert ReplaceAll(t, ":443", "") == "" + ReplaceAll(x, ":443", "");
    ReplaceAllKeepsFront(x, "", ":443", "");
    assert x + "" == x;
  }
}
