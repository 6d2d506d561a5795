# SSO-unprotected plugin: a Dafny model

This project models the core of the `sso_unprotected` plugin of reddalert
(`plugins/sso.py`). The plugin is a periodic security check. It takes the
organisation's DNS names and keeps those that `is_external` accepts and that
are not exempt. It probes `http://name` and `https://name` for each of them
without following redirects. It records per URL the decoded `Location` of a
302, the token `unprotected` for any other status, or `-` when the probe
raised. Then it compares this map with the one stored by the previous run,
stores the new map, and alerts on each changed URL that is now
`unprotected`.

Modules, one per component:

- `Wrappers` (`wrappers.dfy`): `Option`.
- `Pattern` (`pattern.dfy`): `re.search('(http[s]*)://(.*)', s)` as a
  hand-written matcher. It finds the leftmost start position. Group 1 is
  `http` followed by the greedy run of `s`. Group 2 runs up to the first
  newline, because `.` does not match `\n`.
- `Prober` (`prober.dfy`): `page_redirects`. Strip one final `.`, request the
  stripped URL, and classify the outcome.
- `Inventory` (`inventory.dfy`): the `not_aws` comprehension, `keys()`, and
  the http-then-https expansion.
- `Differ` (`differ.dfy`): `dict(redirect_items)`, the changed-URL
  comprehension, the two `continue` rules and the alert loop.
- `Plugin` (`plugin.dfy`): the configuration and status types, and class
  `SsoUnprotected` with its constructor, `Init`, `InitializeStatus` and
  `Run`.

How the model reads the source:

- The values stay strings, as in the source: `unprotected`, `-` or a decoded
  `Location`. So a 302 whose `Location` decodes to `unprotected` is stored,
  compared and alerted exactly like an unprotected host.
- A 302 without a `Location` header raises a lookup error inside the `try`,
  so it is recorded as `-`.
- The request goes to the URL with its dot stripped, and that stripped URL is
  the map key. The network is modelled as one function from the requested URL
  to an outcome, so two requests to the same URL get the same answer. Under
  that assumption the stored map does not depend on the order of `keys()` or
  on which of two URLs that strip to the same key `dict` keeps
  (`RedirectMapIsProbeMap`). If the zone holds both `a` and `a.`, the source
  probes `http://a` twice. The dict keeps the later answer
  (`ToMapLastWins`), and on a real network the two answers can differ.
- Exemption compares the raw zone name, before the dot is stripped.
  Exempting `a` does not keep the zone name `a.` out of the map; it is stored
  as `http://a` (`ExemptionSeesRawName`).
- `_initialize_status` stores an empty list under `redirects`, not an empty
  dict. `run` only uses it with `in` and `.get`, and there an empty list acts
  like an empty dict (`StatusValue.EmptyList`).
- The second suppression test reads group 2 of the location's match whenever
  the redirect matches, and this raises if the location did not match.
  `EmitAlerts` therefore requires `NoCrash` for every changed URL. `Run`
  proves this holds, because every key starts with `http://` or `https://`.
- Neither suppression rule can match `unprotected`: that token has no `h`,
  while the SSO-wrapped URL and every pattern match need one. So every
  changed URL that is now `unprotected` is alerted exactly once. Values
  other than `unprotected` are never alerted (`ChangedAlerts`).
- A lookup of a missing configuration key raises. `InitializeStatus` then
  returns `ok == false`. The GODAUTH URL is copied before the SSO URL is
  looked up, as in the source.
- The class attributes `SSO_URL` and `GODAUTH_URL` are fields of the one
  plugin object.

## Model

| member | source | states |
|---|---|---|
| `Pattern.SRun` | plugins/sso.py:66-67 | the greedy `[s]*` stops at the first character that is not `s` |
| `Pattern.Line` | plugins/sso.py:66-67 | group 2 is the longest prefix of the rest without a newline |
| `Pattern.MatchAtExact` | plugins/sso.py:66-67 | the pattern matches at a position iff some number of `s` letters fits between `http` and `://`; the greedy count is then that number |
| `Pattern.Search` | plugins/sso.py:66-67 | no match iff no position matches; otherwise the match at the leftmost matching position |
| `Pattern.NoHNoMatch` | plugins/sso.py:67 | a string without `h`, such as `unprotected` or `-`, has no match |
| `Pattern.SearchHttp` | plugins/sso.py:66 | `http://x` matches with scheme `http` and rest `x` up to its first newline |
| `Pattern.SearchHttps` | plugins/sso.py:67 | `https://x` matches with scheme `https` and rest `x` up to its first newline |
| `Prober.Classify` | plugins/sso.py:15-21 | `-` on failure or on a 302 without `Location`; the decoded `Location` on a 302 that has one; `unprotected` on any other status |
| `Prober.StripDot` | plugins/sso.py:12-13 | the result is a prefix shorter by at most one character, and shorter exactly when the URL ends with `.` |
| `Prober.PageRedirects` | plugins/sso.py:10-21 | the key is the stripped URL; the value is the decoded `Location` on 302, `-` on 302 without `Location` or on failure, `unprotected` on any other status, all for the request to the stripped URL |
| `Prober.RequestUsesStrippedUrl` | plugins/sso.py:12-14 | the result depends on the network only at the stripped URL |
| `Prober.TrailingDotExample` | plugins/sso.py:12-14 | probing `http://example.com.` requests and records `http://example.com` |
| `Prober.ProbeAll` | plugins/sso.py:57 | one result per input URL, in input order, keyed by the stripped URL and classified by its probe |
| `Inventory.NotAws` | plugins/sso.py:51-52 | a name is kept iff it is in the inventory, `is_external` holds of its entry and it is not exempt; kept entries are unchanged |
| `Inventory.ListKeys` | plugins/sso.py:53-54 | lists every kept name exactly once, in some order |
| `Inventory.Expand` | plugins/sso.py:53-55 | twice as many URLs as names: `http://n` for each name in order, then `https://n` for each |
| `Inventory.ExpandFrom` | plugins/sso.py:53-55 | a URL is a candidate iff it is `http://n` or `https://n` for a listed name `n` |
| `Inventory.UnlistedNeverCandidate` | plugins/sso.py:51-55 | a name that was not kept yields neither candidate URL |
| `Inventory.ExpandSchemeOrder` | plugins/sso.py:53-55 | position `i` holds an `http://` URL iff `i` is in the first half, and an `https://` URL iff it is in the second |
| `Inventory.ExpandDistinct` | plugins/sso.py:53-55 | distinct names give pairwise distinct candidate URLs |
| `Differ.ToMap` | plugins/sso.py:58 | the dict's keys are exactly the first components of the pairs |
| `Differ.ToMapLastWins` | plugins/sso.py:58 | for a duplicated key the dict holds the value of the last pair with that key |
| `Differ.ToMapUniform` | plugins/sso.py:58 | when each pair's value is a function of its key, every dict value is that function of its key |
| `Differ.Changed` | plugins/sso.py:60-63 | a URL is changed iff it is new or its old value differs; the changed map keeps the new values |
| `Differ.NoCrash` | plugins/sso.py:66-70 | one iteration cannot raise when the location is an `http://` or `https://` URL, or the redirect has no `h` |
| `Differ.Suppressed` | plugins/sso.py:68-71 | an SSO-wrapped URL is always skipped; any other skip needs a redirect that contains `h` and matches with scheme `https`, from a location matching with scheme `http` |
| `Differ.Detail` | plugins/sso.py:77 | the detail line is `This domain (`, the URL, then `) is neither behind SSO nor GODAUTH` |
| `Differ.UnprotectedAlert` | plugins/sso.py:73-78 | an alert has plugin name `sso_unprotected` and the URL as id; its one detail line holds the URL at position 13 and ends with `) is neither behind SSO nor GODAUTH` |
| `Differ.EmitAlerts` | plugins/sso.py:65-78 | the alerts are exactly one unprotected-alert per changed URL that is neither SSO-wrapped nor an http-to-https upgrade and is valued `unprotected`; no id twice |
| `Differ.CandidateMatches` | plugins/sso.py:66 | every `http://` or `https://` URL matches the pattern, so the loop never raises on a stored key |
| `Differ.TokensNeverSuppressed` | plugins/sso.py:68-71 | for a candidate URL, neither rule suppresses the value `unprotected` or `-` |
| `Differ.SuppressionRules` | plugins/sso.py:68-71 | `http://h` redirected to the SSO URL followed by itself is suppressed, and so is `http://h` redirected to `https://h` |
| `Differ.ChangedAlerts` | plugins/sso.py:59-78 | a candidate URL is alerted iff it is `unprotected` now and was absent or not `unprotected` before; an unchanged value never alerts |
| `Differ.ColdStart` | plugins/sso.py:59-78 | with no previous map every `unprotected` URL alerts |
| `Plugin.PreviousRedirects` | plugins/sso.py:59 | an absent `redirects` key and the empty list stored by initialisation both read as the empty map; a stored map reads as itself |
| `Plugin.RepeatRunQuiet` | plugins/sso.py:59-64 | the map one run writes is the previous map the next run reads, so the same probe results a second time give no alert |
| `Plugin.StripKeepsPrefix` | plugins/sso.py:12-13 | stripping the dot never cuts into the `http://` or `https://` prefix |
| `Plugin.CandidatesAreUrls` | plugins/sso.py:53-58 | every recorded key starts with `http://` or `https://` |
| `Plugin.ProbeResultKeys` | plugins/sso.py:57-58 | the dict of the probe results has one key per probed URL, with its dot stripped |
| `Plugin.ExpandedCandidates` | plugins/sso.py:53-55 | the stripped candidate URLs of the listed names depend only on the set of kept names |
| `Plugin.RedirectMapIsProbeMap` | plugins/sso.py:53-58 | the stored map is exactly each candidate URL mapped to its probe's classification, whatever the key order or duplicate overwrites |
| `Plugin.ExemptNeverProbed` | plugins/sso.py:49-55 | a name in `exception_domains` yields neither `http://name` nor `https://name` |
| `Plugin.ExemptionSeesRawName` | plugins/sso.py:51-55 | exempting `a` does not keep zone name `a.` from being recorded as `http://a` |
| `Plugin.RunAlerts` | plugins/sso.py:59-78 | the URLs one run alerts on are those `unprotected` now and not `unprotected` in the previous map |
| `Plugin.SsoUnprotected.constructor` | plugins/sso.py:24-32 | the plugin name is `sso_unprotected`, both gateway URLs start empty, and the object is not yet initialised, so `Run` cannot be called |
| `Plugin.SsoUnprotected.InitializeStatus` | plugins/sso.py:40-44 | copies both gateway URLs (GODAUTH first); stores an empty list under `redirects` only if the key is absent and leaves an existing value untouched; fails on a missing key |
| `Plugin.SsoUnprotected.Init` | plugins/sso.py:34-38 | keeps the configuration and status, marks the object initialised, then initialises the status |
| `Plugin.SsoUnprotected.Run` | plugins/sso.py:46-78 | requires that `Init` ran (before it `self.config` does not exist); `redirects` is replaced by the new map, with no old entry kept and every other key unchanged; the alerts are one per URL newly `unprotected`, each once |

## Left out

- `requests.get`, its 3-second timeout, TLS and real HTTP: replaced by the parameter `fetch`, the outcome of one request to a URL.
- `Pool(16).map`: modelled as a sequential map over the list, which gives one result per input, in order.
- `urllib.unquote`: the abstract parameter `unquote`.
- `is_external` and `load_route53_entries`: their bodies are not part of this model. `is_external` is the parameter `isExternal`.
- `load_aws_ips` and `load_known_dns` are foreign API clients. `Run` takes their results, `ips` and a name-keyed `dnsNames` map. The configuration key `zone` is used only by them, so it is not modelled.
- Logging.
- The commented-out GODAUTH and "not reachable" branches: they are disabled, so the model emits nothing for them.
- Plugin.RedirectMapIsProbeMap and Plugin.SsoUnprotected.Run: the network is a snapshot that answers every request to one URL the same way. When two zone names strip to the same URL (`a` and `a.`), the source requests that URL twice and keeps whichever answer comes later in `keys()` order. If the two answers differ, the stored value depends on that order, and the model does not capture this.
- Generator laziness: `Run` returns all alerts and the new status together. In the source the status is written once the caller starts iterating.
- The order of alerts: it follows the unspecified order of the changed dict, so contracts speak of membership and distinctness.
- The status and configuration dicts are values, not shared objects. The caller's dict being updated through aliasing is not modelled.
- Class attributes shared by all instances become fields of one object.
- Calling `run` before `init`: the source raises `AttributeError` because `self.config` and `self.status` do not exist yet. The model's constructor fills them with placeholders and clears a ghost `initialized` flag; `Init` sets it and `Run` requires it, so such a call is excluded rather than modelled as an exception. `edda_client` is used only by the inventory loaders, which are left out above.
