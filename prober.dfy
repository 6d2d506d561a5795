/**
 * `page_redirects`: one probe of one candidate URL, with the HTTP request
 * abstracted. The network is a function `fetch` from the URL actually
 * requested to the outcome of that single request (redirect-following off);
 * `urllib.unquote` is the abstract function `unquote`.
 */
module Prober {
  import opened Wrappers

  /** The token stored for a reachable URL that did not answer 302. */
  const Unprotected := "unprotected"
  /** The token stored when the probe raised any exception. */
  const Unreachable := "-"

  /**
   * What one request gives: a status code and the `Location` header if the
   * response carried one, or a failure (timeout, connection, TLS, ...).
   */
  datatype Outcome = Response(statusCode: int, location: Option<string>) | Failure

  /** Removes one trailing `.` from the whole URL string, if there is one. */
  function StripDot(location: string): (r: string)
    ensures r <= location
    ensures |location| - 1 <= |r|
    ensures |r| < |location| <==> 0 < |location| && location[|location| - 1] == '.'
  {
    if 0 < |location| && location[|location| - 1] == '.' then location[..|location| - 1]
    else location
  }

  /**
   * The stored value for one outcome: the decoded `Location` on 302, the
   * `unprotected` token on any other status, `-` on failure. A 302 without a
   * `Location` header raises a lookup error inside the `try`, so it is `-` too.
   */
  function Classify(o: Outcome, unquote: string -> string): (r: string)
    ensures o.Failure? ==> r == Unreachable
    ensures o.Response? && o.statusCode != 302 ==> r == Unprotected
    ensures o.Response? && o.statusCode == 302 && o.location.None? ==> r == Unreachable
    ensures o.Response? && o.statusCode == 302 && o.location.Some? ==> r == unquote(o.location.value)
  {
    match o
    case Failure => Unreachable
    case Response(code, loc) =>
      if code == 302 then
        match loc
        case Some(h) => unquote(h)
        case None => Unreachable
      else Unprotected
  }

  /** `page_redirects(location)`: the stripped URL, paired with its classification. */
  function PageRedirects(location: string, fetch: string -> Outcome, unquote: string -> string): (r: (string, string))
    ensures r.0 <= location && |location| - 1 <= |r.0|
    ensures |r.0| < |location| <==> 0 < |location| && location[|location| - 1] == '.'
    ensures fetch(r.0).Failure? ==> r.1 == Unreachable
    ensures fetch(r.0).Response? && fetch(r.0).statusCode != 302 ==> r.1 == Unprotected
    ensures fetch(r.0).Response? && fetch(r.0).statusCode == 302 ==>
              r.1 == if fetch(r.0).location.Some? then unquote(fetch(r.0).location.value) else Unreachable
  {
    var stripped := StripDot(location);
    (stripped, Classify(fetch(stripped), unquote))
  }

  /** The request goes to the stripped URL only: two networks that agree there give the same pair. */
  lemma RequestUsesStrippedUrl(location: string, fetch1: string -> Outcome, fetch2: string -> Outcome,
                               unquote: string -> string)
    requires fetch1(StripDot(location)) == fetch2(StripDot(location))
    ensures PageRedirects(location, fetch1, unquote) == PageRedirects(location, fetch2, unquote)
  {
  }

  /** Probing `http://example.com.` records, and requests, `http://example.com`. */
  lemma TrailingDotExample(fetch: string -> Outcome, unquote: string -> string)
    ensures PageRedirects("http://example.com.", fetch, unquote)
            == ("http://example.com", Classify(fetch("http://example.com"), unquote))
  {
    assert StripDot("http://example.com.") == "http://example.com";
  }

  /**
   * `Pool(16).map(page_redirects, locations)`, run sequentially: one result
   * per input URL, in input order, keyed by that URL with its dot stripped.
   */
  function ProbeAll(locations: seq<string>, fetch: string -> Outcome, unquote: string -> string)
    : (r: seq<(string, string)>)
    ensures |r| == |locations|
    ensures forall i :: 0 <= i < |r| ==> r[i].0 == StripDot(locations[i])
    ensures forall i :: 0 <= i < |r| ==> r[i].1 == Classify(fetch(r[i].0), unquote)
  {
    seq(|locations|, i requires 0 <= i < |locations| => PageRedirects(locations[i], fetch, unquote))
  }
}
