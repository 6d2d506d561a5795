/**
 * From probe results to alerts: `dict(redirect_items)`, the set of URLs whose
 * value changed since the previous run, the two suppression rules, and the
 * loop that yields one alert per changed URL now reported `unprotected`.
 */
module Differ {
  import opened Wrappers
  import opened Pattern
  import opened Prober
  import opened Inventory

  const PluginName := "sso_unprotected"

  /** One alert record: plugin name, id and human-readable details. */
  datatype Alert = Alert(pluginName: string, id: string, details: seq<string>)

  /** `dict(items)`: pairs are inserted left to right, so a later key overwrites an earlier one. */
  function ToMap(items: seq<(string, string)>): (m: map<string, string>)
    ensures m.Keys == set i | 0 <= i < |items| :: items[i].0
  {
    if items == [] then map[]
    else
      var init := items[..|items| - 1];
      var last := items[|items| - 1];
      assert forall i :: 0 <= i < |init| ==> init[i] == items[i];
      ToMap(init)[last.0 := last.1]
  }

  /** The value `dict` keeps for a key is the one of that key's last pair. */
  lemma {:induction false} ToMapLastWins(items: seq<(string, string)>, i: nat)
    requires i < |items|
    requires forall j :: i < j < |items| ==> items[j].0 != items[i].0
    ensures ToMap(items)[items[i].0] == items[i].1
    decreases |items|
  {
    var init := items[..|items| - 1];
    if i < |items| - 1 {
      ToMapLastWins(init, i);
    }
  }

  /** When every pair's value is a function of its key, so is every value of the dict. */
  lemma {:induction false} ToMapUniform(items: seq<(string, string)>, f: string -> string)
    requires forall i :: 0 <= i < |items| ==> items[i].1 == f(items[i].0)
    ensures forall k :: k in ToMap(items) ==> ToMap(items)[k] == f(k)
    decreases |items|
  {
    if items != [] {
      ToMapUniform(items[..|items| - 1], f);
    }
  }

  /** The `alerts` comprehension: each URL that is new or whose value differs from the old one. */
  function Changed(redirects: map<string, string>, previous: map<string, string>): (r: map<string, string>)
    ensures forall loc :: loc in r <==> loc in redirects && (loc !in previous || previous[loc] != redirects[loc])
    ensures forall loc :: loc in r ==> r[loc] == redirects[loc]
  {
    map loc | loc in redirects && (loc !in previous || previous[loc] != redirects[loc]) :: redirects[loc]
  }

  /**
   * The second suppression test reads group 2 of the location's match as soon
   * as the redirect matches; if the location did not match, that raises. This
   * is the condition under which one iteration of the loop completes.
   */
  predicate NoCrash(location: string, redirect: string, ssoUrl: string): (b: bool)
    ensures IsCandidateUrl(location) ==> b
    ensures 'h' !in redirect ==> b
  {
    CandidateMatches(location);
    NoHNoMatch(redirect);
    ssoUrl + location == redirect || Search(redirect).None? || Search(location).Some?
  }

  /** The two `continue` tests: SSO wrapping of the URL itself, or an `http` to `https` upgrade. */
  predicate Suppressed(location: string, redirect: string, ssoUrl: string): (b: bool)
    requires NoCrash(location, redirect, ssoUrl)
    ensures ssoUrl + location == redirect ==> b
    ensures b && ssoUrl + location != redirect ==>
              && 'h' in redirect && Search(redirect).Some? && Search(redirect).value.scheme == "https"
              && Search(location).value.scheme == "http"
  {
    NoHNoMatch(redirect);
    || ssoUrl + location == redirect
    || (var locRe, redRe := Search(location), Search(redirect);
        && redRe.Some?
        && locRe.value.rest == redRe.value.rest
        && redRe.value.scheme == "https"
        && locRe.value.scheme == "http")
  }

  /** The detail line of an alert. */
  function Detail(location: string): (r: string)
    ensures |r| == 13 + |location| + 35
    ensures r[..13] == "This domain (" && r[13..13 + |location|] == location
    ensures r[13 + |location|..] == ") is neither behind SSO nor GODAUTH"
  {
    "This domain (" + location + ") is neither behind SSO nor GODAUTH"
  }

  /** The alert for an unprotected URL: this plugin, the URL as id, one detail line naming it. */
  function UnprotectedAlert(location: string): (a: Alert)
    ensures a.pluginName == PluginName && a.id == location && |a.details| == 1
    ensures |a.details[0]| == 13 + |location| + 35
    ensures a.details[0][..13] == "This domain (" && a.details[0][13..13 + |location|] == location
    ensures a.details[0][13 + |location|..] == ") is neither behind SSO nor GODAUTH"
  {
    Alert(PluginName, location, [Detail(location)])
  }

  /** The URLs the loop alerts on: changed, not suppressed, and valued `unprotected`. */
  ghost function AlertIds(changed: map<string, string>, ssoUrl: string): set<string>
    requires forall loc :: loc in changed ==> NoCrash(loc, changed[loc], ssoUrl)
  {
    set loc | loc in changed && !Suppressed(loc, changed[loc], ssoUrl) && changed[loc] == Unprotected
  }

  /** `alerts` holds exactly one unprotected-alert for each URL of `ids`, and nothing else. */
  ghost predicate AlertsFor(alerts: seq<Alert>, ids: set<string>)
  {
    && (forall a :: a in alerts <==> a.id in ids && a == UnprotectedAlert(a.id))
    && (forall i, j :: 0 <= i < j < |alerts| ==> alerts[i].id != alerts[j].id)
  }

  /** Appending the alert of a URL not yet covered covers that URL too. */
  lemma AlertsForAppend(alerts: seq<Alert>, ids: set<string>, location: string)
    requires AlertsFor(alerts, ids) && location !in ids
    ensures AlertsFor(alerts + [UnprotectedAlert(location)], ids + {location})
  {
  }

  /** One step of the loop: a URL is alerted iff both `continue` tests fail and it is `unprotected`. */
  lemma AlertedIff(changed: map<string, string>, ssoUrl: string, location: string)
    requires forall loc :: loc in changed ==> NoCrash(loc, changed[loc], ssoUrl)
    requires location in changed
    ensures var redirect, locRe, redRe := changed[location], Search(location), Search(changed[location]);
            location in AlertIds(changed, ssoUrl) <==>
              && ssoUrl + location != redirect
              && !(redRe.Some? && locRe.value.rest == redRe.value.rest
                   && redRe.value.scheme == "https" && locRe.value.scheme == "http")
              && redirect == Unprotected
  {
  }

  /**
   * The `for location, redirect in alerts.iteritems()` loop, in whatever order
   * the dict yields: exactly one alert for each URL of `AlertIds`, and no other.
   */
  method EmitAlerts(changed: map<string, string>, ssoUrl: string) returns (alerts: seq<Alert>)
    requires forall loc :: loc in changed ==> NoCrash(loc, changed[loc], ssoUrl)
    ensures forall a :: a in alerts <==> a.id in AlertIds(changed, ssoUrl) && a == UnprotectedAlert(a.id)
    ensures forall i, j :: 0 <= i < j < |alerts| ==> alerts[i].id != alerts[j].id
  {
    ghost var ids := AlertIds(changed, ssoUrl);
    alerts := [];
    var remaining := changed.Keys;
    while remaining != {}
      invariant remaining <= changed.Keys
      invariant AlertsFor(alerts, ids - remaining)
      decreases remaining
    {
      var location :| location in remaining;
      AlertedIff(changed, ssoUrl, location);
      ghost var done := ids - remaining;
      remaining := remaining - {location};
      var redirect := changed[location];
      var locRe := Search(location);
      var redRe := Search(redirect);
      if ssoUrl + location == redirect {
        assert ids - remaining == done;
        continue;
      }
      if redRe.Some? && locRe.value.rest == redRe.value.rest
         && redRe.value.scheme == "https" && locRe.value.scheme == "http" {
        assert ids - remaining == done;
        continue;
      }
      if redirect == Unprotected {
        assert ids - remaining == done + {location};
        AlertsForAppend(alerts, done, location);
        alerts := alerts + [UnprotectedAlert(location)];
      } else {
        assert ids - remaining == done;
      }
    }
    assert ids - remaining == ids;
  }

  /** A candidate URL: it starts with `http://` or `https://`. */
  predicate IsCandidateUrl(u: string)
  {
    HttpPrefix <= u || HttpsPrefix <= u
  }

  /** Every candidate URL matches the pattern, so the loop never raises on it. */
  lemma CandidateMatches(u: string)
    ensures IsCandidateUrl(u) ==> Search(u).Some?
  {
    if !IsCandidateUrl(u) {
    } else if HttpPrefix <= u {
      assert u == HttpPrefix + u[7..];
      SearchHttp(u[7..]);
    } else {
      assert u == HttpsPrefix + u[8..];
      SearchHttps(u[8..]);
    }
  }

  /** Neither suppression rule can match the literal `unprotected` (nor `-`) for a candidate URL. */
  lemma TokensNeverSuppressed(location: string, ssoUrl: string, token: string)
    requires IsCandidateUrl(location)
    requires token == Unprotected || token == Unreachable
    ensures NoCrash(location, token, ssoUrl)
    ensures !Suppressed(location, token, ssoUrl)
  {
    NoHNoMatch(token);
    assert location[0] == 'h';
    assert (ssoUrl + location)[|ssoUrl|] == 'h';
    assert 'h' in ssoUrl + location;
  }

  /** The two rules that silence a changed URL, on the inputs they are written for. */
  lemma SuppressionRules(host: string, ssoUrl: string)
    ensures NoCrash(HttpPrefix + host, ssoUrl + HttpPrefix + host, ssoUrl)
    ensures Suppressed(HttpPrefix + host, ssoUrl + HttpPrefix + host, ssoUrl)
    ensures NoCrash(HttpPrefix + host, HttpsPrefix + host, ssoUrl)
    ensures Suppressed(HttpPrefix + host, HttpsPrefix + host, ssoUrl)
  {
    assert ssoUrl + HttpPrefix + host == ssoUrl + (HttpPrefix + host);
    SearchHttp(host);
    SearchHttps(host);
  }

  /**
   * Across runs: a candidate URL is alerted exactly when it is `unprotected`
   * now and was not `unprotected` in the previous map. In particular an
   * unchanged value is never alerted, and redirects and `-` never are.
   */
  lemma ChangedAlerts(redirects: map<string, string>, previous: map<string, string>, ssoUrl: string)
    requires forall loc :: loc in redirects ==> IsCandidateUrl(loc)
    ensures forall loc :: loc in Changed(redirects, previous) ==>
              NoCrash(loc, Changed(redirects, previous)[loc], ssoUrl)
    ensures AlertIds(Changed(redirects, previous), ssoUrl)
            == set loc | loc in redirects && redirects[loc] == Unprotected
                         && (loc !in previous || previous[loc] != Unprotected)
  {
    var changed := Changed(redirects, previous);
    forall loc | loc in changed
      ensures NoCrash(loc, changed[loc], ssoUrl)
    {
      CandidateMatches(loc);
    }
    forall loc | loc in changed && changed[loc] == Unprotected
      ensures !Suppressed(loc, changed[loc], ssoUrl)
    {
      TokensNeverSuppressed(loc, ssoUrl, Unprotected);
    }
  }

  /** First run: with no previous map every `unprotected` URL is alerted. */
  lemma ColdStart(redirects: map<string, string>, ssoUrl: string)
    requires forall loc :: loc in redirects ==> IsCandidateUrl(loc)
    ensures forall loc :: loc in Changed(redirects, map[]) ==>
              NoCrash(loc, Changed(redirects, map[])[loc], ssoUrl)
    ensures AlertIds(Changed(redirects, map[]), ssoUrl)
            == set loc | loc in redirects && redirects[loc] == Unprotected
  {
    ChangedAlerts(redirects, map[], ssoUrl);
  }
}
