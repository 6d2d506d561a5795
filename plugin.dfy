/**
 * The `SSOUnprotected` plugin object: its configuration, the persisted
 * status it owns, `_initialize_status`, and `run`, which wires the inventory
 * filter, the prober and the differ together and replaces the stored
 * redirect map with the new one.
 */
module Plugin {
  import opened Wrappers
  import opened Pattern
  import opened Prober
  import opened Inventory
  import opened Differ

  /** The plugin's configuration dict; a key may be missing. */
  datatype Config = Config(
    godauthUrl: Option<string>,
    ssoUrl: Option<string>,
    legitDomains: Option<seq<string>>,
    exceptionDomains: Option<seq<string>>)

  /**
   * What the status dict holds under a key: `_initialize_status` stores an
   * empty list, `run` stores the redirect map.
   */
  datatype StatusValue = EmptyList | UrlMap(urls: map<string, string>)

  const RedirectsKey := "redirects"

  /**
   * `status.get("redirects", {})` as `run` uses it: membership and lookup on
   * the empty list behave as on the empty dict.
   */
  function PreviousRedirects(status: map<string, StatusValue>): (r: map<string, string>)
    ensures RedirectsKey !in status ==> r == map[]
    ensures RedirectsKey in status && status[RedirectsKey].EmptyList? ==> r == map[]
    ensures RedirectsKey in status && status[RedirectsKey].UrlMap? ==> r == status[RedirectsKey].urls
  {
    if RedirectsKey in status then
      match status[RedirectsKey]
      case EmptyList => map[]
      case UrlMap(m) => m
    else map[]
  }

  /** The names kept by the `not_aws` comprehension under this configuration. */
  function KeptNames(config: Config, dnsNames: map<string, DnsEntry>, ips: seq<Option<string>>,
                     isExternal: ExternalTest): (r: set<string>)
  {
    NotAws(dnsNames, ips, config.legitDomains.GetOr([]), config.exceptionDomains.GetOr([]), isExternal).Keys
  }

  /** The keys `run` records: both stripped URLs of every kept name. */
  function Candidates(kept: set<string>): (r: set<string>)
  {
    (set n | n in kept :: StripDot(HttpPrefix + n)) + (set n | n in kept :: StripDot(HttpsPrefix + n))
  }

  /** Reference definition of the redirect map: each candidate with the classification of its probe. */
  function ProbeMap(kept: set<string>, fetch: string -> Outcome, unquote: string -> string): (r: map<string, string>)
  {
    map u | u in Candidates(kept) :: Classify(fetch(u), unquote)
  }

  /** The URLs `run` alerts on: `unprotected` now and not `unprotected` in the previous map. */
  ghost function NewlyUnprotected(redirects: map<string, string>, previous: map<string, string>): (r: set<string>)
  {
    set loc | loc in redirects && redirects[loc] == Unprotected && (loc !in previous || previous[loc] != Unprotected)
  }

  /** Stripping the dot never reaches into the scheme prefix, which ends with `/`. */
  lemma StripKeepsPrefix(prefix: string, n: string)
    requires 0 < |prefix| && prefix[|prefix| - 1] == '/'
    ensures prefix <= StripDot(prefix + n)
  {
  }

  /** Every recorded key is a candidate URL, so the alert loop never raises on it. */
  lemma CandidatesAreUrls(kept: set<string>)
    ensures forall u :: u in Candidates(kept) ==> IsCandidateUrl(u)
  {
  }

  /** `dict` of the probe results has one key per probed URL, its dot stripped. */
  lemma ProbeResultKeys(locations: seq<string>, fetch: string -> Outcome, unquote: string -> string)
    ensures ToMap(ProbeAll(locations, fetch, unquote)).Keys == set u | u in locations :: StripDot(u)
  {
  }

  /** The stripped candidate URLs of the listed names are those of the kept set. */
  lemma ExpandedCandidates(names: seq<string>, kept: set<string>)
    requires forall n :: n in names <==> n in kept
    ensures (set u | u in Expand(names) :: StripDot(u)) == Candidates(kept)
  {
  }

  /**
   * Whatever order `keys()` lists the kept names in and whatever pair `dict`
   * keeps for a key that two URLs strip to, `dict(map(page_redirects, ...))`
   * is the reference map: no candidate is omitted and none is added.
   */
  lemma RedirectMapIsProbeMap(names: seq<string>, kept: set<string>, fetch: string -> Outcome,
                              unquote: string -> string)
    requires forall n :: n in names <==> n in kept
    ensures ToMap(ProbeAll(Expand(names), fetch, unquote)) == ProbeMap(kept, fetch, unquote)
  {
    var items := ProbeAll(Expand(names), fetch, unquote);
    ProbeResultKeys(Expand(names), fetch, unquote);
    ExpandedCandidates(names, kept);
    ToMapUniform(items, u => Classify(fetch(u), unquote));
  }

  /** An exempt name yields neither candidate URL, whatever `is_external` says of it. */
  lemma ExemptNeverProbed(config: Config, dnsNames: map<string, DnsEntry>, ips: seq<Option<string>>,
                          isExternal: ExternalTest, names: seq<string>, n: string)
    requires Enumerates(names, KeptNames(config, dnsNames, ips, isExternal))
    requires n in config.exceptionDomains.GetOr([])
    ensures HttpPrefix + n !in Expand(names) && HttpsPrefix + n !in Expand(names)
  {
    UnlistedNeverCandidate(names, n);
  }

  /**
   * The exemption compares the raw zone name, before its dot is stripped:
   * exempting `a` does not stop the zone name `a.` from being probed and
   * recorded as `http://a`.
   */
  lemma ExemptionSeesRawName(e: DnsEntry, fetch: string -> Outcome, unquote: string -> string)
    ensures "http://a" in ProbeMap(KeptNames(Config(None, None, None, Some(["a"])), map["a." := e], [],
                                             (_, _, _) => true), fetch, unquote)
  {
    var kept := KeptNames(Config(None, None, None, Some(["a"])), map["a." := e], [], (_, _, _) => true);
    assert "a." in kept;
    assert StripDot(HttpPrefix + "a.") == "http://a";
  }

  /** What one run alerts on, in terms of the probes and the previous map alone. */
  lemma RunAlerts(kept: set<string>, fetch: string -> Outcome, unquote: string -> string,
                  previous: map<string, string>, ssoUrl: string)
    ensures forall loc :: loc in Changed(ProbeMap(kept, fetch, unquote), previous) ==>
              NoCrash(loc, Changed(ProbeMap(kept, fetch, unquote), previous)[loc], ssoUrl)
    ensures AlertIds(Changed(ProbeMap(kept, fetch, unquote), previous), ssoUrl)
            == NewlyUnprotected(ProbeMap(kept, fetch, unquote), previous)
  {
    CandidatesAreUrls(kept);
    ChangedAlerts(ProbeMap(kept, fetch, unquote), previous, ssoUrl);
  }

  /**
   * The map a run writes is the previous map the next run reads, so a second
   * run over the same probe results raises no alert at all.
   */
  lemma RepeatRunQuiet(status: map<string, StatusValue>, redirects: map<string, string>)
    ensures PreviousRedirects(status[RedirectsKey := UrlMap(redirects)]) == redirects
    ensures NewlyUnprotected(redirects, PreviousRedirects(status[RedirectsKey := UrlMap(redirects)])) == {}
  {
  }

  class SsoUnprotected {
    const pluginName: string
    /** The class attributes `SSO_URL` and `GODAUTH_URL`. */
    var ssoUrl: string
    var godauthUrl: string
    var config: Config
    var status: map<string, StatusValue>
    /**
     * Whether `init` has stored `config` and `status`; before that the two
     * attributes do not exist and reading them raises `AttributeError`.
     */
    ghost var initialized: bool

    /**
     * `__init__` sets only the plugin name; `config` and `status` hold
     * placeholders that nothing may read until `Init` replaces them.
     */
    constructor ()
      ensures pluginName == PluginName
      ensures ssoUrl == "" && godauthUrl == ""
      ensures !initialized
    {
      pluginName := PluginName;
      ssoUrl, godauthUrl := "", "";
      config := Config(None, None, None, None);
      status := map[];
      initialized := false;
    }

    /**
     * `_initialize_status`: copy the two gateway URLs from the configuration
     * and store an empty list under `redirects` unless the key is there.
     * `ok` is false when a lookup of a missing key raises; the GODAUTH URL is
     * copied before the SSO URL is looked up.
     */
    method InitializeStatus() returns (ok: bool)
      requires initialized
      modifies this
      ensures initialized
      ensures config == old(config)
      ensures ok <==> config.godauthUrl.Some? && config.ssoUrl.Some?
      ensures godauthUrl == if config.godauthUrl.Some? then config.godauthUrl.value else old(godauthUrl)
      ensures ssoUrl == if ok then config.ssoUrl.value else old(ssoUrl)
      ensures ok && RedirectsKey !in old(status) ==> status == old(status)[RedirectsKey := EmptyList]
      ensures !ok || RedirectsKey in old(status) ==> status == old(status)
    {
      if config.godauthUrl.None? {
        return false;
      }
      godauthUrl := config.godauthUrl.value;
      if config.ssoUrl.None? {
        return false;
      }
      ssoUrl := config.ssoUrl.value;
      if RedirectsKey !in status {
        status := status[RedirectsKey := EmptyList];
      }
      ok := true;
    }

    /** `init`: keep the configuration and the status dict, then initialise the status. */
    method Init(config: Config, status: map<string, StatusValue>) returns (ok: bool)
      modifies this
      ensures initialized
      ensures this.config == config
      ensures ok <==> config.godauthUrl.Some? && config.ssoUrl.Some?
      ensures godauthUrl == if config.godauthUrl.Some? then config.godauthUrl.value else old(godauthUrl)
      ensures ssoUrl == if ok then config.ssoUrl.value else old(ssoUrl)
      ensures ok && RedirectsKey !in status ==> this.status == status[RedirectsKey := EmptyList]
      ensures !ok || RedirectsKey in status ==> this.status == status
    {
      this.config := config;
      this.status := status;
      initialized := true;
      ok := InitializeStatus();
    }

    /**
     * `run`, with the inventory (`ips`, `dnsNames`), `is_external`, the
     * network and `unquote` given. The stored redirect map is replaced by
     * the new one, every other status key is kept, and the alerts are one
     * `unprotected` alert for each URL that is `unprotected` now and was not
     * before.
     */
    method Run(ips: seq<Option<string>>, dnsNames: map<string, DnsEntry>, isExternal: ExternalTest,
               fetch: string -> Outcome, unquote: string -> string) returns (alerts: seq<Alert>)
      requires initialized
      modifies this
      ensures initialized
      ensures config == old(config) && ssoUrl == old(ssoUrl) && godauthUrl == old(godauthUrl)
      ensures status == old(status)[RedirectsKey :=
                UrlMap(ProbeMap(KeptNames(config, dnsNames, ips, isExternal), fetch, unquote))]
      ensures forall a :: a in alerts <==>
                && a == UnprotectedAlert(a.id)
                && a.id in NewlyUnprotected(ProbeMap(KeptNames(config, dnsNames, ips, isExternal), fetch, unquote),
                                            PreviousRedirects(old(status)))
      ensures forall i, j :: 0 <= i < j < |alerts| ==> alerts[i].id != alerts[j].id
    {
      var legitDomains := config.legitDomains.GetOr([]);
      var exempts := config.exceptionDomains.GetOr([]);
      var notAws := NotAws(dnsNames, ips, legitDomains, exempts, isExternal);
      var names := ListKeys(notAws.Keys);
      var locations := Expand(names);
      var redirectItems := ProbeAll(locations, fetch, unquote);
      var redirects := ToMap(redirectItems);
      var oldRedirects := PreviousRedirects(status);
      var changed := Changed(redirects, oldRedirects);
      status := status[RedirectsKey := UrlMap(redirects)];
      RedirectMapIsProbeMap(names, notAws.Keys, fetch, unquote);
      RunAlerts(notAws.Keys, fetch, unquote, oldRedirects, ssoUrl);
      alerts := EmitAlerts(changed, ssoUrl);
    }
  }
}
