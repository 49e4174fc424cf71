/**
  The text the editor generates: the upstream name derived from a target URL, the
  `upstream` block annotated with that URL, and the `location` block that forwards an
  endpoint to the upstream.  A URL enters as the record `urlparse` would produce.
*/
module Blocks {
  import opened Regex
  import opened Text
  import opened Patterns

  /** The port of a parsed URL: none given, a number, or text for which `parsed.port` raises
      `ValueError` (not a number, or outside 0..65535). */
  datatype Port = NoPort | PortNumber(number: nat) | BadPort

  /** `urlparse(base_url)` as far as the editor reads it; `text` is `base_url` itself. */
  datatype Url = Url(text: string, scheme: string, hostname: Option<string>, port: Port, path: string)

  function UnderscoreChar(c: char): char {
    if c == '.' || c == '-' then '_' else c
  }

  /** `re.sub(r'[.-]', '_', h)`. */
  function Underscored(h: string): string {
    seq(|h|, k requires 0 <= k < |h| => UnderscoreChar(h[k]))
  }

  /** `parsed.hostname or 'unknown'`: an absent or empty host name reads as `unknown`. */
  function HostOrUnknown(hostname: Option<string>): string {
    match hostname
    case Some(h) => if h == "" then "unknown" else h
    case None => "unknown"
  }

  /** `_parse_upstream_name`: the host name with `.` and `-` turned into `_`, then `_upstream`. */
  function UpstreamName(hostname: Option<string>): (r: string)
    ensures |r| == |HostOrUnknown(hostname)| + 9
    ensures r[|HostOrUnknown(hostname)|..] == "_upstream"
    ensures forall k | 0 <= k < |HostOrUnknown(hostname)| ::
              r[k] == UnderscoreChar(HostOrUnknown(hostname)[k])
    ensures '.' !in r && '-' !in r
  {
    Underscored(HostOrUnknown(hostname)) + "_upstream"
  }

  /** The examples of the test suite, and the fallback for a URL without a host. */
  lemma UpstreamNameExamples()
    ensures UpstreamName(Some("api.openai.com")) == "api_openai_com_upstream"
    ensures UpstreamName(Some("api.anthropic.com")) == "api_anthropic_com_upstream"
  {
    UpstreamNameOpenAI();
    UpstreamNameAnthropic();
  }

  lemma UpstreamNameOpenAI()
    ensures UpstreamName(Some("api.openai.com")) == "api_openai_com_upstream"
  {
  }

  lemma UpstreamNameAnthropic()
    ensures UpstreamName(Some("api.anthropic.com")) == "api_anthropic_com_upstream"
  {
  }

  /** A host name without `.` or `-` is kept as it is, and a missing one reads as `unknown`. */
  lemma UpstreamNameFallback()
    ensures UpstreamName(Some("localhost")) == "localhost_upstream"
    ensures UpstreamName(None) == "unknown_upstream"
  {
  }

  /** Two host names that differ only in `.` against `-` or `_` share one upstream name. */
  lemma UpstreamNameCollides()
    ensures UpstreamName(Some("a-b.c")) == UpstreamName(Some("a.b_c"))
  {
  }

  /** `parsed.port or (443 if parsed.scheme == 'https' else 80)`; `None` where `.port` raises. */
  function EffectivePort(u: Url): (r: Option<nat>)
    ensures r.None? <==> u.port.BadPort? || (u.port.PortNumber? && u.port.number > 65535)
    ensures r.Some? && u.port.PortNumber? && u.port.number != 0 ==> r.value == u.port.number
    ensures r.Some? && !(u.port.PortNumber? && u.port.number != 0) ==>
              r.value == (if u.scheme == "https" then 443 else 80)
  {
    match u.port
    case BadPort => None
    case PortNumber(n) =>
      if n > 65535 then None
      else if n != 0 then Some(n)
      else Some(if u.scheme == "https" then 443 else 80)
    case NoPort => Some(if u.scheme == "https" then 443 else 80)
  }

  /** `f"{parsed.hostname}"`: an absent host name prints as `None`. */
  function HostText(hostname: Option<string>): string {
    match hostname
    case Some(h) => h
    case None => "None"
  }

  /** `# Upstream for <base_url>`: the annotation that keeps the URL verbatim. */
  function Annotation(u: Url): string {
    "# Upstream for " + u.text
  }

  /** The address of the upstream's server, `<host>:<port>`. */
  function ServerAddress(u: Url, port: nat): string {
    HostText(u.hostname) + ":" + Decimal(port)
  }

  /** The `server` directive of the upstream. */
  function ServerDirective(u: Url, port: nat): string {
    "server " + ServerAddress(u, port) + ";"
  }

  /** `_generate_upstream_block`; `None` where reading the port raises. */
  function UpstreamBlock(u: Url, upstream: string): (r: Option<string>)
    ensures r.None? <==> EffectivePort(u).None?
  {
    match EffectivePort(u)
    case None => None
    case Some(port) =>
      Some("    " + (Annotation(u) + ("\n    " + (HeaderText("upstream", upstream)
           + ("\n        " + (ServerDirective(u, port) + "\n        keepalive 32;\n    }"))))))
  }

  /** Where the parts of the generated upstream block stand. */
  lemma UpstreamBlockLayout(u: Url, upstream: string)
    requires UpstreamBlock(u, upstream).Some?
    ensures var b := UpstreamBlock(u, upstream).value;
            var h := HeaderText("upstream", upstream);
            && OccursAt(b, "    ", 0) && OccursAt(b, Annotation(u), 4) && OccursAt(b, "\n    ", 4 + |Annotation(u)|)
            && OccursAt(b, h, 9 + |Annotation(u)|)
            && OccursAt(b, ServerDirective(u, EffectivePort(u).value), 18 + |Annotation(u)| + |h|)
  {
    var sd := ServerDirective(u, EffectivePort(u).value);
    NestedPieces("    ", Annotation(u), "\n    ", HeaderText("upstream", upstream), "\n        ",
                 sd + "\n        keepalive 32;\n    }");
    OccursSplit(UpstreamBlock(u, upstream).value, sd, "\n        keepalive 32;\n    }",
                18 + |Annotation(u)| + |HeaderText("upstream", upstream)|);
  }

  /** The generated upstream block opens with the annotation line carrying the URL verbatim,
      declares the upstream, and names its server with the effective port. */
  lemma UpstreamBlockShape(u: Url, upstream: string)
    requires UpstreamBlock(u, upstream).Some?
    ensures StartsWith(UpstreamBlock(u, upstream).value, "    " + Annotation(u) + "\n")
    ensures HasHeader(UpstreamBlock(u, upstream).value, "upstream", upstream)
    ensures Contains(UpstreamBlock(u, upstream).value, ServerDirective(u, EffectivePort(u).value))
  {
    var b := UpstreamBlock(u, upstream).value;
    var ann := Annotation(u);
    UpstreamBlockLayout(u, upstream);
    OccursSplit(b, "\n", "    ", 4 + |ann|);
    OccursJoin(b, "    ", ann, 0);
    OccursJoin(b, "    " + ann, "\n", 0);
    HeaderTextOccurs(b, "upstream", upstream, 9 + |ann|);
  }

  /** The annotation's URL and the upstream's name, where the annotation lookup expects them. */
  lemma AnnotationLayout(u: Url, upstream: string)
    requires UpstreamBlock(u, upstream).Some?
    ensures var b := UpstreamBlock(u, upstream).value;
            && OccursAt(b, "    ", 0) && OccursAt(b, "# Upstream for ", 4) && OccursAt(b, u.text, 19)
            && OccursAt(b, "\n    upstream ", 19 + |u.text|) && OccursAt(b, upstream, 33 + |u.text|)
  {
    var b := UpstreamBlock(u, upstream).value;
    var t := u.text;
    UpstreamBlockLayout(u, upstream);
    OccursSplit(b, "# Upstream for ", t, 4);
    OccursSplit(b, "upstream" + " " + upstream, " {", 24 + |t|);
    OccursSplit(b, "upstream" + " ", upstream, 24 + |t|);
    OccursJoin(b, "\n    ", "upstream" + " ", 19 + |t|);
    assert "\n    " + ("upstream" + " ") == "\n    upstream ";
  }

  /** The URL comes back verbatim as group 1 of the first annotation lookup over the
      generated block, for a non-empty single-line URL. */
  lemma AnnotationReadBack(u: Url, upstream: string)
    requires UpstreamBlock(u, upstream).Some?
    requires u.text != [] && NoNewline(u.text)
    requires upstream != [] && !IsSpace(upstream[0])
    ensures SearchFrom(AnnotationPattern(upstream), UpstreamBlock(u, upstream).value, 0).Some?
    ensures var f := SearchFrom(AnnotationPattern(upstream), UpstreamBlock(u, upstream).value, 0).value;
            |f.marks| == 2 && f.marks[0] <= f.marks[1] <= |UpstreamBlock(u, upstream).value|
            && UpstreamBlock(u, upstream).value[f.marks[0]..f.marks[1]] == u.text
  {
    var b := UpstreamBlock(u, upstream).value;
    AnnotationLayout(u, upstream);
    AnnotationFound(b, u.text, upstream);
  }

  /** `name` is truthy: given and not empty. */
  predicate HasName(name: Option<string>) {
    name.Some? && name.value != ""
  }

  /** The comment above the location: `# <name>`, or `# Proxy for <base_url>` without a name. */
  function CommentText(u: Url, name: Option<string>): string {
    if HasName(name) then "# " + name.value else "# Proxy for " + u.text
  }

  /** The path part the rewrite rule keeps: the URL path without trailing `/`, or nothing when
      the path is empty or `/`. */
  function BasePath(u: Url): string {
    if u.path != "" && u.path != "/" then RStrip(u.path, '/') else ""
  }

  /** The rewrite rule: the endpoint prefix is cut off and the rest is put under the base path. */
  function RewriteRule(e: string, u: Url): string {
    var prefix := "rewrite ^" + RegexEscape(RStrip(e, '/')) + "/(.*) ";
    if BasePath(u) != "" then prefix + BasePath(u) + "/$1 break;" else prefix + "/$1 break;"
  }

  /** Whatever the path, the rewrite target is the base path followed by `/$1`; a path that is
      empty or `/` leaves just `/$1`. */
  lemma RewriteTarget(e: string, u: Url)
    ensures var prefix := "rewrite ^" + RegexEscape(RStrip(e, '/')) + "/(.*) ";
            RewriteRule(e, u) == prefix + BasePath(u) + "/$1 break;"
    ensures u.path == "" || u.path == "/" ==> BasePath(u) == ""
    ensures BasePath(u) == [] || BasePath(u)[|BasePath(u)| - 1] != '/'
  {
  }

  function SslLines(u: Url): seq<string>
    requires u.scheme == "https" ==> u.hostname.Some?
  {
    if u.scheme == "https" then
      [ "            proxy_ssl_server_name on;",
        "            proxy_ssl_name " + u.hostname.value + ";" ]
    else []
  }

  /** The lines of the location block up to its `proxy_pass` line. */
  function LocationHead(e: string, u: Url, upstream: string, name: Option<string>): seq<string> {
    [ "        ",
      "        " + CommentText(u, name),
      "        " + HeaderText("location", e),
      "            # Remove " + RStrip(e, '/') + " prefix and pass to upstream",
      "            " + RewriteRule(e, u),
      "            ",
      "            proxy_pass " + u.scheme + "://" + upstream + ";" ]
  }

  /** A `proxy_set_header` line of the location block. */
  function SetHeader(field: string, value: string): string {
    "            proxy_set_header " + field + " " + value + ";"
  }

  /** The section `# Headers for proper proxying` of the location block. */
  function HeaderSection(u: Url): seq<string> {
    [ "            # Headers for proper proxying",
      SetHeader("Host", HostText(u.hostname)),
      SetHeader("X-Real-IP", "$remote_addr"),
      SetHeader("X-Forwarded-For", "$proxy_add_x_forwarded_for"),
      SetHeader("X-Forwarded-Proto", "$scheme") ]
  }

  /** The section `# WebSocket support`. */
  function WebSocketSection(): seq<string> {
    [ "            # WebSocket support",
      "            proxy_http_version 1.1;",
      SetHeader("Upgrade", "$http_upgrade"),
      SetHeader("Connection", "$connection_upgrade") ]
  }

  /** The section `# Timeout settings`. */
  function TimeoutSection(): seq<string> {
    [ "            # Timeout settings",
      "            proxy_connect_timeout 60s;",
      "            proxy_send_timeout 60s;",
      "            proxy_read_timeout 60s;" ]
  }

  /** The section `# Buffer settings for streaming`. */
  function BufferSection(): seq<string> {
    [ "            # Buffer settings for streaming",
      "            proxy_buffering off;",
      "            proxy_cache_bypass $http_upgrade;" ]
  }

  /** The lines of the location block after its `proxy_pass` line and the SSL lines, up to the
      closing `}`: four sections, each after a blank line. */
  function TailBody(u: Url): seq<string> {
    ["            "] + HeaderSection(u) + ["            "] + WebSocketSection()
    + ["            "] + TimeoutSection() + ["            "] + BufferSection()
  }

  /** The lines of the location block after its `proxy_pass` line and the SSL lines. */
  function LocationTail(u: Url): seq<string> {
    TailBody(u) + ["        }"]
  }

  /** The lines of `_generate_location_block`; `None` for an `https` URL without a host name,
      where the concatenation with `parsed.hostname` raises `TypeError`. */
  function LocationLines(e: string, u: Url, upstream: string, name: Option<string>): (r: Option<seq<string>>)
    ensures r.None? <==> u.scheme == "https" && u.hostname.None?
  {
    if u.scheme == "https" && u.hostname.None? then None
    else Some(LocationHead(e, u, upstream, name) + SslLines(u) + LocationTail(u))
  }

  /** `_generate_location_block`. */
  function LocationBlock(e: string, u: Url, upstream: string, name: Option<string>): Option<string> {
    match LocationLines(e, u, upstream, name)
    case None => None
    case Some(lines) => Some(Join(lines))
  }

  /** The block forwards to `<scheme>://<upstream>`, and its timeouts are all 60 seconds with
      buffering off. */
  lemma LocationSettings(e: string, u: Url, upstream: string, name: Option<string>)
    requires LocationLines(e, u, upstream, name).Some?
    ensures var lines := LocationLines(e, u, upstream, name).value;
            && "            proxy_pass " + u.scheme + "://" + upstream + ";" in lines
            && "            proxy_connect_timeout 60s;" in lines
            && "            proxy_send_timeout 60s;" in lines
            && "            proxy_read_timeout 60s;" in lines
            && "            proxy_buffering off;" in lines
  {
    var head, tail := LocationHead(e, u, upstream, name), LocationTail(u);
    var lines := LocationLines(e, u, upstream, name).value;
    var t := |head| + |SslLines(u)|;
    assert lines[6] == head[6];
    assert lines[t + 13] == tail[13];
    assert lines[t + 14] == tail[14];
    assert lines[t + 15] == tail[15];
    assert lines[t + 18] == tail[18];
  }

  const SslServerNameLine := "            proxy_ssl_server_name on;"

  /** Two strings that differ at one position differ. */
  lemma DiffersAt(x: string, y: string, j: nat)
    requires j < |x| && j < |y| && x[j] != y[j]
    ensures x != y
  {
  }

  /** No line before `proxy_pass` is the SSL line: each differs from it in one character. */
  lemma SslNotInHead(e: string, u: Url, upstream: string, name: Option<string>)
    ensures SslServerNameLine !in LocationHead(e, u, upstream, name)
  {
    CommentLineNotSsl(u, name);
    HeaderLineNotSsl(e);
    RemoveLineNotSsl(e);
    RewriteLineNotSsl(e, u);
    ProxyPassLineNotSsl(u, upstream);
  }

  lemma CommentLineNotSsl(u: Url, name: Option<string>)
    ensures "        " + CommentText(u, name) != SslServerNameLine
  {
    IndentedDiffers("        ", CommentText(u, name), '#');
  }

  lemma HeaderLineNotSsl(e: string)
    ensures "        " + HeaderText("location", e) != SslServerNameLine
  {
    IndentedDiffers("        ", HeaderText("location", e), 'l');
  }

  lemma RemoveLineNotSsl(e: string)
    ensures "            # Remove " + RStrip(e, '/') + " prefix and pass to upstream" != SslServerNameLine
  {
    DiffersAt("            # Remove " + RStrip(e, '/') + " prefix and pass to upstream", SslServerNameLine, 12);
  }

  lemma RewriteLineNotSsl(e: string, u: Url)
    ensures "            " + RewriteRule(e, u) != SslServerNameLine
  {
    IndentedDiffers("            ", RewriteRule(e, u), 'r');
  }

  lemma ProxyPassLineNotSsl(u: Url, upstream: string)
    ensures "            proxy_pass " + u.scheme + "://" + upstream + ";" != SslServerNameLine
  {
    DiffersAt("            proxy_pass " + u.scheme + "://" + upstream + ";", SslServerNameLine, 18);
  }

  /** A line whose text after `indent` starts where the SSL line has another character. */
  lemma IndentedDiffers(indent: string, x: string, c: char)
    requires x != [] && x[0] == c && |indent| < |SslServerNameLine| && SslServerNameLine[|indent|] != c
    ensures indent + x != SslServerNameLine
  {
    DiffersAt(indent + x, SslServerNameLine, |indent|);
  }

  /** No line after the SSL lines is the SSL line. */
  lemma SslNotInTail(u: Url)
    ensures SslServerNameLine !in LocationTail(u)
  {
    DiffersAt(LocationTail(u)[2], SslServerNameLine, 19);
  }

  /** The SSL lines are there exactly for an `https` URL, and `proxy_ssl_name` then names the host. */
  lemma SslOnlyForHttps(e: string, u: Url, upstream: string, name: Option<string>)
    requires LocationLines(e, u, upstream, name).Some?
    ensures SslServerNameLine in LocationLines(e, u, upstream, name).value <==> u.scheme == "https"
    ensures u.scheme == "https" ==>
              "            proxy_ssl_name " + u.hostname.value + ";" in LocationLines(e, u, upstream, name).value
  {
    var head, tail := LocationHead(e, u, upstream, name), LocationTail(u);
    var lines := LocationLines(e, u, upstream, name).value;
    SslNotInHead(e, u, upstream, name);
    SslNotInTail(u);
    if u.scheme == "https" {
      assert lines[7] == SslServerNameLine;
      assert lines[8] == "            proxy_ssl_name " + u.hostname.value + ";";
    } else {
      assert lines == head + tail;
    }
  }

  /** The endpoint's header is in the location block and in its commented-out mirror, so the
      header test of `proxy_exists` finds either copy. */
  lemma LocationBlockHeader(e: string, u: Url, upstream: string, name: Option<string>)
    requires LocationBlock(e, u, upstream, name).Some?
    ensures HasHeader(LocationBlock(e, u, upstream, name).value, "location", e)
    ensures NoNewline(e) ==> HasHeader(Commented(LocationBlock(e, u, upstream, name).value), "location", e)
  {
    LocationHeaderLine(e, u, upstream, name);
    HeaderOnThirdLine(LocationLines(e, u, upstream, name).value, e);
  }

  /** Lines whose third is an endpoint's header, joined, hold that header, plain and commented. */
  lemma HeaderOnThirdLine(lines: seq<string>, e: string)
    requires |lines| > 3 && lines[2] == "        " + HeaderText("location", e)
    ensures HasHeader(Join(lines), "location", e)
    ensures NoNewline(e) ==> HasHeader(Commented(Join(lines)), "location", e)
  {
    HeaderLineInJoin(lines, 2, "        ", "location", e);
    if NoNewline(e) {
      LocationHeaderSingle(e);
      HeaderLineInCommented(lines, 2, "        ", "location", e);
    }
  }

  lemma LocationHeaderSingle(e: string)
    requires NoNewline(e)
    ensures NoNewline("        " + HeaderText("location", e))
  {
    assert NoNewline("        ") && NoNewline("location");
    HeaderLineSingle("        ", "location", e);
  }

  /** The third line of the block is the endpoint's header. */
  lemma LocationHeaderLine(e: string, u: Url, upstream: string, name: Option<string>)
    requires LocationLines(e, u, upstream, name).Some?
    ensures var lines := LocationLines(e, u, upstream, name).value;
            |lines| > 3 && lines[2] == "        " + HeaderText("location", e)
  {
    var head := LocationHead(e, u, upstream, name);
    assert LocationLines(e, u, upstream, name).value[..7] == head;
  }
}
