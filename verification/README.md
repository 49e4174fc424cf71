# NginxManager, modelled in Dafny

`llm-proxy-cli` keeps a set of reverse-proxy rules in one nginx configuration file.
Each rule forwards a path prefix, the *endpoint* (say `/claude/`), to a *target* URL. The
class `NginxManager` (`llm_proxy_cli/nginx_manager.py`) edits that file as text, using regular
expressions. It has four public operations:

- `proxy_exists(endpoint)` looks for a `location <endpoint> {` header.
- `add_proxy(endpoint, base_url, name)` declares an `upstream <host>_upstream` block. The block
  is annotated with `# Upstream for <base_url>` and is added only when missing. The operation
  then splices a `location` block in after the baseline `/openai/` rule of the HTTP server. If
  there is a commented HTTPS section, it splices a commented copy of the block in there too.
- `remove_proxy(endpoint)` cuts out the commented-and-annotated location blocks of the endpoint.
  It does this both in the HTTP server and in the commented HTTPS section.
- `list_proxies()` reads every commented location block back as an endpoint, a target URL and
  a name.

Every change is written through `_write_config`, which first copies the old text into
`.conf.backup`.

The project has nine modules:

- `Regex` (regex.dfy): a small backtracking regular-expression engine with the matching priority
  of Python's `re`. It covers literal text, greedy `*` and `+` over a character class, and group
  boundaries. It has `search`, `finditer` and `sub`. The engine is proved sound and complete
  against a declarative meaning of patterns.
- `Text` (text.dfy): string helpers. They are `split`/`join` on newlines, `rstrip`,
  `re.escape`, decimal printing, `str.replace`, and the `    #` line prefix of the commented
  copy.
- `Patterns` (patterns.dfy): every pattern of the class, written node by node. The header
  pattern `<keyword>\s+<word>\s*\{` is proved equivalent to a direct statement over the text.
- `Blocks` (blocks.dfy): the upstream name, and the upstream and location blocks as generated
  text.
- `Editor` (editor.dfy): `add_proxy` and `remove_proxy` as functions of the configuration text,
  with the properties of the results.
- `Listing` (listing.dfy): `list_proxies` as a function of the configuration text. The
  server-address rule of lines 233-236 is used as written. The rule that the comment on line
  232 describes is kept beside it, as a second listing.
- `Readback` (readback.dfy): a text laid out as a generated location block, and proofs that
  the listing pattern matches such a text from its comment to its closing `}`.
- `RoundTrip` (roundtrip.dfy): a block generated by `_generate_location_block` has that
  layout, so `list_proxies` reads back the endpoint, the upstream and the name it was
  generated with.
- `Manager` (manager.dfy): the class itself, with the configuration and the backup as fields.
  Its methods perform the steps of the source. Each method is proved to end in the state that
  the functions above describe.

A URL enters as the record `urlparse` would produce. That record holds the text, scheme, host
name, port and path. The port is either absent, a number, or text on which `.port` raises.

## Model

| member | source | states |
|---|---|---|
| Manager.NginxManager.constructor | llm_proxy_cli/nginx_manager.py:13-22 | the manager holds the existing configuration text and the previous backup |
| Manager.NginxManager.WriteConfig | llm_proxy_cli/nginx_manager.py:28-40 | the old configuration becomes the backup and the new content becomes the configuration; the result is `True` |
| Manager.NginxManager.ProxyExists | llm_proxy_cli/nginx_manager.py:112-117 | the answer is true exactly when the text contains `location`, whitespace, the endpoint, optional whitespace and `{` |
| Manager.NginxManager.AddProxy | llm_proxy_cli/nginx_manager.py:119-182 | success exactly when every step succeeds; on success the configuration is the edited text and the backup the old text; on failure neither file changes |
| Manager.NginxManager.RemoveProxy | llm_proxy_cli/nginx_manager.py:184-203 | both substitutions are applied in order and the result is written back (and backed up) even when nothing matched |
| Manager.NginxManager.ListProxies | llm_proxy_cli/nginx_manager.py:205-246 | the listing is the entry list read from the configuration, with the server-address rule of lines 233-236 as written; no entry has a reserved endpoint (`/openai/`, `/health`) |
| Manager.CollectEntries | llm_proxy_cli/nginx_manager.py:215-244 | the loop over the matches builds exactly one entry per match whose endpoint is not reserved, in match order |
| Manager.DeclareUpstream | llm_proxy_cli/nginx_manager.py:128-153 | the upstream step ends in the text (or failure) that `WithUpstream` describes |
| Manager.DeclareLocation | llm_proxy_cli/nginx_manager.py:155-176 | the location step ends in the text (or failure) that `WithLocation` describes |
| Manager.PlaceLocation | llm_proxy_cli/nginx_manager.py:158-176 | the block goes after the HTTP anchor, and its commented copy goes after the HTTPS anchor when that is found |
| Manager.TestConfigEndpoints | tests/test_nginx_manager.py:19-37 | in the test's configuration, `/openai/` and `/claude/` exist and `/gpt/` does not |
| Blocks.UpstreamName | llm_proxy_cli/nginx_manager.py:42-47 | the name is the host name (or `unknown`) with `.` and `-` replaced by `_`, then `_upstream`; it contains no `.` or `-` |
| Blocks.UpstreamNameExamples | tests/test_nginx_manager.py:15-16 | `api.openai.com` and `api.anthropic.com` give the test's upstream names |
| Blocks.UpstreamNameFallback | llm_proxy_cli/nginx_manager.py:46-47 | a host without `.` or `-` is kept as is (the test's `localhost`); a missing host gives `unknown_upstream` |
| Blocks.UpstreamNameCollides | llm_proxy_cli/nginx_manager.py:46 | two different host names can share one upstream name |
| Blocks.EffectivePort | llm_proxy_cli/nginx_manager.py:52 | the port is the given number, except that port 0 or no port gives 443 for `https` and 80 otherwise; an unreadable or out-of-range port is an error |
| Blocks.UpstreamBlock | llm_proxy_cli/nginx_manager.py:49-58 | generation fails exactly when the port cannot be read |
| Blocks.UpstreamBlockLayout | llm_proxy_cli/nginx_manager.py:54-58 | the block holds the annotation, then the `upstream <name> {` header, then `server <host>:<port>;`, each at its stated offset |
| Blocks.UpstreamBlockShape | llm_proxy_cli/nginx_manager.py:54-58 | the block opens with the annotation line, declares the upstream and contains the server directive |
| Blocks.AnnotationReadBack | llm_proxy_cli/nginx_manager.py:54-55 | the annotation lookup of `list_proxies` finds the block's annotation, and its group is the URL verbatim |
| Blocks.RewriteTarget | llm_proxy_cli/nginx_manager.py:74-81 | the rewrite rule cuts the escaped endpoint prefix and puts the rest under the base path; an empty or `/` path gives `/$1`; the base path never ends with `/` |
| Blocks.LocationLines | llm_proxy_cli/nginx_manager.py:60-110 | generation fails exactly for an `https` URL without a host name |
| Blocks.LocationSettings | llm_proxy_cli/nginx_manager.py:89-108 | the block passes to `<scheme>://<upstream>`, sets all three timeouts to 60s and turns buffering off |
| Blocks.SslOnlyForHttps | llm_proxy_cli/nginx_manager.py:68-71 | the SSL lines are there exactly for an `https` URL, and `proxy_ssl_name` then names the host |
| Blocks.LocationHeaderLine | llm_proxy_cli/nginx_manager.py:83-85 | the third line of the block is the endpoint's `location` header |
| Blocks.LocationBlockHeader | llm_proxy_cli/nginx_manager.py:83-85 | the block and its commented copy both hold the endpoint's header |
| Patterns.HeaderOccursIff | llm_proxy_cli/nginx_manager.py:116 | the header regex occurs in a text exactly when the text holds the keyword, whitespace, the word, optional whitespace and `{` |
| Patterns.HeaderPresent | llm_proxy_cli/nginx_manager.py:116-117 | `re.search` with the header pattern succeeds exactly when the header is in the text |
| Patterns.HeaderSurvivesInsert | llm_proxy_cli/nginx_manager.py:163-164 | inserting text right after a `}` (or at the start) keeps every header of the old text whose keyword and word hold no `}` |
| Editor.Insert | llm_proxy_cli/nginx_manager.py:153 | the text before and after the position is kept and the new text sits at the position |
| Editor.UpstreamInsertPos | llm_proxy_cli/nginx_manager.py:136-151 | the position, when there is one, lies inside the text and after its first character |
| Editor.AfterLastMatch | llm_proxy_cli/nginx_manager.py:140-143 | with annotated upstream blocks, the position is past the last one and no further match follows |
| Editor.LastMatch | llm_proxy_cli/nginx_manager.py:142-143 | the position is the end of a match of the anchor pattern |
| Editor.BeforeFirstMatch | llm_proxy_cli/nginx_manager.py:144-151 | without such blocks, there is a position exactly when the `# HTTP server` pattern matches, and it is one past the newline that starts that match |
| Editor.UpstreamInsertPosStartsLine | llm_proxy_cli/nginx_manager.py:137-153 | the new upstream block always starts a line |
| Editor.WithUpstream | llm_proxy_cli/nginx_manager.py:128-153 | an existing upstream header leaves the text as it is; the only failures are an unreadable port and a missing position |
| Editor.WithUpstreamSucceeds | llm_proxy_cli/nginx_manager.py:130-153 | without the header, the step succeeds exactly when the port reads and a position exists |
| Editor.WithUpstreamDeclares | llm_proxy_cli/nginx_manager.py:128-153 | after the step, the text declares the upstream |
| Editor.NewUpstreamPlacement | llm_proxy_cli/nginx_manager.py:153 | the new block lies between the kept text before and after the position, on lines of its own |
| Editor.SpliceAfter | llm_proxy_cli/nginx_manager.py:158-176 | the splice fails exactly when the HTTP anchor is missing |
| Editor.SpliceKeepsHeaders | llm_proxy_cli/nginx_manager.py:162-176 | every header of the old text survives both insertions |
| Editor.SpliceDeclares | llm_proxy_cli/nginx_manager.py:162-176 | every header of the inserted block is in the result |
| Editor.SpliceLength | llm_proxy_cli/nginx_manager.py:162-176 | the text grows by the block alone when the HTTPS anchor is not found after the first insertion, and by the block and its commented copy when it is |
| Editor.WithLocation | llm_proxy_cli/nginx_manager.py:155-176 | failure exactly when the block cannot be generated (`NoHostForTls`) or the HTTP anchor is missing (`NoHttpAnchor`) |
| Editor.WithLocationKeepsHeaders | llm_proxy_cli/nginx_manager.py:155-176 | headers already in the text survive the location step |
| Editor.WithLocationDeclaresEndpoint | llm_proxy_cli/nginx_manager.py:155-176 | after the location step, the endpoint's header is in the text |
| Editor.AddDeclaresEndpointAndUpstream | llm_proxy_cli/nginx_manager.py:119-178 | after a successful `add_proxy`, `proxy_exists(endpoint)` holds and the upstream is declared |
| Editor.SharedHostAddsOnlyLocations | llm_proxy_cli/nginx_manager.py:129-176 | for a host whose upstream is declared, `add_proxy` is exactly the location step on the unchanged text; the text grows by the block, plus its copy exactly when the HTTPS anchor is found |
| Editor.AddNeedsHttpAnchor | llm_proxy_cli/nginx_manager.py:159-166 | without the HTTP anchor, and with the upstream already there, `add_proxy` fails |
| Editor.RemovedConfig | llm_proxy_cli/nginx_manager.py:184-195 | removal never lengthens the text |
| Editor.RemovedIsOutsideMatches | llm_proxy_cli/nginx_manager.py:189-195 | what remains is exactly the text between the matches, first of the live pattern, then of the mirror pattern |
| Editor.RemovalNeedsHeader | llm_proxy_cli/nginx_manager.py:190-195 | a removal pattern matches only where the endpoint's header is |
| Editor.RemoveAbsentIsIdentity | llm_proxy_cli/nginx_manager.py:184-199 | removing an endpoint that has no header leaves the text unchanged |
| Editor.RemovalNeedsHash | llm_proxy_cli/nginx_manager.py:190-195 | neither removal pattern matches a text without `#` |
| Editor.RemoveWithoutCommentsIsIdentity | llm_proxy_cli/nginx_manager.py:184-199 | a text without comments is written back unchanged |
| Editor.RemoveMayKeepEndpoint | llm_proxy_cli/nginx_manager.py:184-199 | a location block without a comment line above it survives removal, so `proxy_exists` still holds |
| Listing.ListingMatches | llm_proxy_cli/nginx_manager.py:212-213 | every match of the listing pattern can be read as its three groups |
| Listing.Entries | llm_proxy_cli/nginx_manager.py:215-244 | there are no more entries than matches, and no entry has a reserved endpoint |
| Listing.EntriesStep | llm_proxy_cli/nginx_manager.py:215-244 | one more match adds its entry exactly when its endpoint is not reserved |
| Listing.EntryOrigin | llm_proxy_cli/nginx_manager.py:215-244 | every entry is the entry of some match |
| Listing.EntryListed | llm_proxy_cli/nginx_manager.py:215-244 | every match whose endpoint is not reserved has its entry in the list |
| Listing.EntriesListExactly | llm_proxy_cli/nginx_manager.py:215-244 | an endpoint is listed exactly when it is not reserved and some match has it |
| Listing.ProxyList | llm_proxy_cli/nginx_manager.py:205-246 | the entries of the listing matches, with targets rebuilt by the rule of lines 233-236 as written; no listed endpoint is reserved |
| Listing.ProxyListIntended | llm_proxy_cli/nginx_manager.py:205-246 | the same listing, with targets rebuilt by the rule the comment on line 232 describes; no listed endpoint is reserved |
| Listing.ListingsDifferInTargetsOnly | llm_proxy_cli/nginx_manager.py:230-236 | the two listings have the same length, and the same endpoints and names in the same order; only targets differ |
| Listing.ListedIffMatched | llm_proxy_cli/nginx_manager.py:205-246 | an endpoint is listed exactly when it is not reserved and some match of the listing pattern has it |
| Listing.NameOf | llm_proxy_cli/nginx_manager.py:243 | the name is the comment, or none when the comment starts with `Proxy for` |
| Listing.NameRoundTrip | llm_proxy_cli/nginx_manager.py:63 | the name `add_proxy` wrote comes back, unless it was empty or starts with `Proxy for`; without a name none comes back |
| Listing.TargetReadBack | llm_proxy_cli/nginx_manager.py:219-224 | a configuration that opens with a generated upstream block lists that upstream's URL verbatim as the target |
| Listing.FallbackTarget | llm_proxy_cli/nginx_manager.py:232 | the rebuilt target always starts with `https://` or `http://` |
| Listing.FallbackTargetPort | llm_proxy_cli/nginx_manager.py:230-236 | a `<host>:<port>` server becomes `https://<host>` exactly for port 443, and `http://<host>:<port>` otherwise |
| Readback.ListingFindsLayout | llm_proxy_cli/nginx_manager.py:212-213 | in a text laid out as a block (no `#` before the comment; the comment line, `location`, the endpoint, ` {`, a `proxy_pass` to `<scheme>://<upstream>;` and the first `}`), the first match of the listing pattern spans that block, with its group marks at the comment, the endpoint and the upstream |
| Readback.ShapeRead | llm_proxy_cli/nginx_manager.py:212-213 | in such a text, the three groups are the comment without `# `, the endpoint and the upstream, and the match ends at the text's end |
| RoundTrip.ListingReadsBlock | llm_proxy_cli/nginx_manager.py:60-110 | the listing pattern reads a generated block back: one match from the comment to the closing `}`, whose groups are the comment without `# `, the endpoint and the upstream name the block was generated with |
| RoundTrip.BlockListed | llm_proxy_cli/nginx_manager.py:205-246 | `list_proxies` on a generated block lists exactly one proxy, unless the endpoint is reserved. That proxy has the endpoint, the target for the upstream name and the name given, unless the name was absent, empty or starts with `Proxy for` |
| Listing.FallbackTargetMisreadsPort | llm_proxy_cli/nginx_manager.py:233-234 | as written, a port that merely starts with `443` is read as https and its `:443` is cut out; the corrected rule keeps it |
| Regex.MatchSound | llm_proxy_cli/nginx_manager.py:117 | every match the engine reports is accepted by the pattern's declarative meaning |
| Regex.MatchComplete | llm_proxy_cli/nginx_manager.py:117 | whenever the pattern accepts some span from a start, the engine reports a match from there |
| Regex.SearchFrom | llm_proxy_cli/nginx_manager.py:117 | `re.search` reports the leftmost start at which the pattern matches, and no match exactly when none starts anywhere |
| Regex.SearchIffOccurs | llm_proxy_cli/nginx_manager.py:130 | the search succeeds exactly when the pattern occurs somewhere |
| Regex.FindAll | llm_proxy_cli/nginx_manager.py:138 | `re.finditer` reports non-empty, non-overlapping matches in order, and none exactly when the search fails |
| Regex.FindAllCovers | llm_proxy_cli/nginx_manager.py:138 | `re.finditer` misses no match: every position from which the pattern matches lies inside a reported span |
| Regex.FindAllLastIsLast | llm_proxy_cli/nginx_manager.py:142-143 | nothing matches after the end of the last reported match |
| Regex.SubKeepsGaps | llm_proxy_cli/nginx_manager.py:191 | `re.sub` with an empty replacement leaves exactly the text between the `finditer` matches |
| Text.Split | llm_proxy_cli/nginx_manager.py:174 | the lines contain no newline and join back to the text |
| Text.SplitJoin | llm_proxy_cli/nginx_manager.py:174 | splitting joined newline-free lines gives the lines back |
| Text.CommentedRoundTrip | llm_proxy_cli/nginx_manager.py:174 | removing the `    #` prefix from each line of the commented copy gives the block back |
| Text.RStrip | llm_proxy_cli/nginx_manager.py:74 | the result is a prefix of the text that does not end with the character, and only that character was cut |
| Text.RegexEscape | llm_proxy_cli/nginx_manager.py:79 | text without special characters is kept; the result is never shorter |
| Text.DecimalRoundTrip | llm_proxy_cli/nginx_manager.py:56 | a printed port parses back to the same number |
| Text.DecimalInjective | llm_proxy_cli/nginx_manager.py:56 | different ports print differently |

## Left out

- File I/O is not modelled: the two files are the fields `config` and `backup`. `__init__`'s
  missing-file error is not modelled either. The constructor takes an existing text.
- The `try`/`except` blocks and the `print` calls are not modelled. `_write_config` cannot fail
  here. `add_proxy`'s exceptions are the `Failed` values of `Editor.AddError`. The exception
  branch of `list_proxies` (lines 248-250) has no counterpart. None of its steps can raise in
  the model.
- `urlparse` is not modelled: its result is the `Url` record, with the port already classified
  as absent, a number, or unreadable.
- Manager.NginxManager.AddProxy: the upstream name is used unescaped in the regex of line 129.
  The model searches for it literally. This differs only for host names that contain regex
  metacharacters.
- The replacement on line 134 replaces the annotation with itself. It has no effect, so the
  model leaves it out.
- Editor.RemovedConfig: `remove_proxy` is meant to leave every upstream block in place (line
  197). No lemma proves this. It holds only for well-formed text. An `upstream` header inside
  a location body that lacks its `}` is cut out with that body. So is one on the comment line
  where a match starts. `Editor.RemovedIsOutsideMatches` gives exactly what remains.
- Listing.TargetReadBack: the add-then-list round trip of the target URL is proved only for a
  configuration that opens with the generated upstream block. It is not proved for a block
  spliced into an arbitrary configuration, where an earlier text could match the annotation
  pattern first.
- The `re.DOTALL` and `re.MULTILINE` flags have no effect, since no pattern uses `.`, `^` or
  `$`. Capture groups whose span is never read are omitted.
- Manager.NginxManager.RemoveProxy: a description of the tool says an endpoint no longer exists
  after removal. The code does not guarantee this: a location block without a comment line
  above it is not matched. The model follows the code, and `Editor.RemoveMayKeepEndpoint` shows
  such a case.
- RoundTrip.BlockListed: the add-then-list round trip is proved for a generated block on its
  own, with `RoundTrip.Readable` values (a one-line name, and an endpoint, scheme and upstream
  name without the characters the listing pattern stops at). It is not proved for a block
  spliced into an arbitrary configuration. There, an earlier commented block whose
  `proxy_pass` has no `://` lets the pattern run on into the new block, so the new block is
  not read as its own match.
- `main.py` (the command line) and `docker_manager.py` are not part of this model.

## Findings

| source | as written | input that shows it | evidently intended | confidence | as-written member | corrected member |
|---|---|---|---|---|---|---|
| llm_proxy_cli/nginx_manager.py:233-234 | any server text that contains `:443` is read as `https`, and every `:443` is deleted from it | server `example.com:4431` gives `https://example.com1` | `https` only for port 443, with the port dropped; every other port kept with `http` (the comment on line 232) | not executed | Listing.FallbackTargetMisreadsPort | Listing.FallbackTargetPort |
