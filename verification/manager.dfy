/**
  The `NginxManager` class of llm_proxy_cli/nginx_manager.py.  The configuration file and its
  `.conf.backup` copy are the two fields of the object; every public operation reads the
  configuration, and those that change it write it back through `WriteConfig`, which first
  copies the current text into the backup.
*/
module Manager {
  import opened Regex
  import opened Text
  import opened Patterns
  import opened Blocks
  import opened Editor
  import opened Listing

  class NginxManager {
    /** The text of the configuration file. */
    var config: string
    /** The text of the `.conf.backup` file next to it. */
    var backup: string

    /** A manager over an existing configuration file (`__init__` raises when there is none). */
    constructor (content: string, previousBackup: string)
      ensures config == content && backup == previousBackup
    {
      config := content;
      backup := previousBackup;
    }

    /** `_write_config` (lines 28-40): the current text goes to the backup, then `content`
        becomes the configuration. */
    method WriteConfig(content: string) returns (ok: bool)
      modifies this
      ensures ok
      ensures backup == old(config) && config == content
    {
      backup := config;
      config := content;
      ok := true;
    }

    /** `proxy_exists` (lines 112-117). */
    method ProxyExists(endpoint: string) returns (b: bool)
      ensures b <==> HasHeader(config, "location", endpoint)
    {
      b := HeaderPresent(config, "location", endpoint);
    }

    /** `add_proxy` (lines 119-182): declares the upstream of `u` unless it is there, then
        splices in the location block and its commented copy; every failure leaves both files
        as they were. */
    method AddProxy(endpoint: string, u: Url, name: Option<string>) returns (ok: bool)
      modifies this
      ensures ok <==> AddedConfig(old(config), endpoint, u, name).Edited?
      ensures ok ==> config == AddedConfig(old(config), endpoint, u, name).config && backup == old(config)
      ensures !ok ==> config == old(config) && backup == old(backup)
    {
      var upstream := UpstreamName(u.hostname);
      var declared := DeclareUpstream(config, u, upstream);
      if declared.Failed? {
        return false;
      }
      var located := DeclareLocation(declared.config, endpoint, u, upstream, name);
      if located.Failed? {
        return false;
      }
      ok := WriteConfig(located.config);
    }

    /** `remove_proxy` (lines 184-203): both substitutions, then the text is written back even
        when nothing matched. */
    method RemoveProxy(endpoint: string) returns (ok: bool)
      modifies this
      ensures ok
      ensures config == RemovedConfig(old(config), endpoint) && backup == old(config)
    {
      RemovalPatternsNonEmpty(endpoint);
      var text := Sub(LiveBlockPattern(endpoint), config, 0);
      text := Sub(MirrorBlockPattern(endpoint), text, 0);
      ok := WriteConfig(text);
    }

    /** `list_proxies` (lines 205-250): one entry per match of the listing pattern whose
        endpoint is not reserved, in the order of the matches. */
    method ListProxies() returns (proxies: seq<Proxy>)
      ensures proxies == ProxyList(config)
      ensures forall k | 0 <= k < |proxies| :: !Reserved(proxies[k].endpoint)
    {
      var matches := ListingMatches(config);
      proxies := CollectEntries(config, matches);
    }
  }

  /** The loop of lines 215-244 of `list_proxies` over the matches `ms`. */
  method CollectEntries(c: string, ms: seq<Found>) returns (proxies: seq<Proxy>)
    requires AllGroupsIn(c, ms, 3)
    ensures proxies == Entries(c, ms, AsWritten)
  {
    proxies := [];
    var i := 0;
    while i < |ms|
      invariant 0 <= i <= |ms|
      invariant AllGroupsIn(c, ms[..i], 3)
      invariant proxies == Entries(c, ms[..i], AsWritten)
    {
      EntriesStep(c, ms, i, AsWritten);
      var m := ms[i];
      var endpoint := Group(c, m, 1);
      if !Reserved(endpoint) {
        proxies := proxies + [EntryOf(c, m, AsWritten)];
      }
      i := i + 1;
    }
    assert ms[..i] == ms;
  }

  /** Lines 128-153 of `add_proxy`: the upstream is declared unless its header is there. */
  method DeclareUpstream(text: string, u: Url, upstream: string) returns (r: Edit)
    ensures r == WithUpstream(text, u, upstream)
  {
    if HeaderPresent(text, "upstream", upstream) {
      return Edited(text);
    }
    var block := UpstreamBlock(u, upstream);
    if block.None? {
      return Failed(InvalidPort);
    }
    var pos := UpstreamInsertPos(text);
    if pos.None? {
      return Failed(NoUpstreamPosition);
    }
    r := Edited(Insert(text, pos.value, "\n" + block.value + "\n"));
  }

  /** Lines 155-176 of `add_proxy`: the location block is generated and spliced in. */
  method DeclareLocation(text: string, e: string, u: Url, upstream: string, name: Option<string>)
    returns (r: Edit)
    ensures r == WithLocation(text, e, u, upstream, name)
  {
    var location := LocationBlock(e, u, upstream, name);
    if location.None? {
      return Failed(NoHostForTls);
    }
    var placed := PlaceLocation(text, location.value);
    if placed.None? {
      return Failed(NoHttpAnchor);
    }
    r := Edited(placed.value);
  }

  /** Lines 155-176 of `add_proxy`: the location block after the HTTP anchor, then its
      commented copy after the HTTPS anchor when there is one. */
  method PlaceLocation(text: string, block: string) returns (r: Option<string>)
    ensures r == SpliceAfter(text, block, HttpAnchor(), HttpsAnchor())
  {
    var http := SearchFrom(HttpAnchor(), text, 0);
    if http.None? {
      return None;
    }
    var withHttp := Insert(text, http.value.end, block);
    var https := SearchFrom(HttpsAnchor(), withHttp, 0);
    if https.None? {
      return Some(withHttp);
    }
    r := Some(Insert(withHttp, https.value.end, Commented(block)));
  }

  /** The configuration of the proxy-detection test (tests/test_nginx_manager.py, lines 23-31):
      two location blocks, `/openai/` and `/claude/`. */
  function TestConfig(): string {
    "\n        " + (HeaderText("location", "/openai/") + ((TestBody("openai_api") + "\n        ")
    + (HeaderText("location", "/claude/") + TestBody("claude_api"))))
  }

  /** The body of a test location block up to the indentation after it. */
  function TestBody(upstream: string): string {
    "\n            proxy_pass https://" + upstream + ";" + "\n        }\n        "
  }

  /** A word with a character the text lacks is not in it. */
  lemma MissingCharNotContained(s: string, t: string, c: char)
    requires c in t && c !in s
    ensures !Contains(s, t)
  {
  }

  /** Two headers with text around them are both found. */
  lemma TwoHeaders(a: string, b: string, c: string, keyword: string, w1: string, w2: string)
    ensures HasHeader(a + (HeaderText(keyword, w1) + (b + (HeaderText(keyword, w2) + c))), keyword, w1)
    ensures HasHeader(a + (HeaderText(keyword, w1) + (b + (HeaderText(keyword, w2) + c))), keyword, w2)
  {
    var h1, h2 := HeaderText(keyword, w1), HeaderText(keyword, w2);
    var s := a + (h1 + (b + (h2 + c)));
    FrontPieces(a, h1, b, h2 + c);
    HeaderTextOccurs(s, keyword, w1, |a|);
    OccursPrefix(h2, c);
    OccursShift(b, h2 + c, h2, 0);
    OccursShift(h1, b + (h2 + c), h2, |b|);
    OccursShift(a, h1 + (b + (h2 + c)), h2, |h1| + |b|);
    HeaderTextOccurs(s, keyword, w2, |a| + (|h1| + |b|));
  }

  lemma TestConfigLacksG()
    ensures 'g' !in TestConfig() && 'g' in "/gpt/"
  {
    TestHeaderLacksG("/openai/");
    TestHeaderLacksG("/claude/");
    TestBodyLacksG("openai_api");
    TestBodyLacksG("claude_api");
    assert 'g' !in "\n        ";
    assert "/gpt/"[1] == 'g';
  }

  lemma TestHeaderLacksG(e: string)
    requires 'g' !in e
    ensures 'g' !in HeaderText("location", e)
  {
    assert 'g' !in "location";
  }

  lemma TestBodyLacksG(upstream: string)
    requires 'g' !in upstream
    ensures 'g' !in TestBody(upstream)
  {
    assert 'g' !in "\n            proxy_pass https://" && 'g' !in "\n        }\n        ";
  }

  /** The assertions of that test: `/openai/` and `/claude/` exist, `/gpt/` does not. */
  lemma TestConfigEndpoints()
    ensures HasHeader(TestConfig(), "location", "/openai/")
    ensures HasHeader(TestConfig(), "location", "/claude/")
    ensures !HasHeader(TestConfig(), "location", "/gpt/")
  {
    TwoHeaders("\n        ", TestBody("openai_api") + "\n        ", TestBody("claude_api"), "location", "/openai/", "/claude/");
    TestConfigLacksG();
    MissingCharNotContained(TestConfig(), "/gpt/", 'g');
    if HasHeader(TestConfig(), "location", "/gpt/") {
      HeaderContainsWord(TestConfig(), "location", "/gpt/");
    }
  }
}
