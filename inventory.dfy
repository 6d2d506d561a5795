/**
 * From the DNS inventory to the list of candidate URLs: the dict
 * comprehension that keeps external, non-exempt names, the listing of its
 * keys, and the expansion of each name into an `http://` and an `https://` URL.
 */
module Inventory {
  import opened Wrappers

  /** One zone record, as `load_known_dns` keys it by name. */
  datatype DnsEntry = DnsEntry(name: string, recordType: string, targets: seq<string>)

  /**
   * `is_external(entry, ips, legit_domains)`, whose body lives outside this
   * core: any total test of an entry against the public IPs of the instances
   * (some instances have none) and the legit domain suffixes.
   */
  type ExternalTest = (DnsEntry, seq<Option<string>>, seq<string>) -> bool

  const HttpPrefix := "http://"
  const HttpsPrefix := "https://"

  /** The `not_aws` comprehension: the entries that are external and not exempt. */
  function NotAws(dnsNames: map<string, DnsEntry>, ips: seq<Option<string>>, legitDomains: seq<string>,
                  exempts: seq<string>, isExternal: ExternalTest): (r: map<string, DnsEntry>)
    ensures forall name :: name in r <==>
              name in dnsNames && isExternal(dnsNames[name], ips, legitDomains) && name !in exempts
    ensures forall name :: name in r ==> r[name] == dnsNames[name]
  {
    map name | name in dnsNames && isExternal(dnsNames[name], ips, legitDomains) && name !in exempts
      :: dnsNames[name]
  }

  /** `names` lists the set `keys`, each key exactly once. */
  ghost predicate Enumerates(names: seq<string>, keys: set<string>)
  {
    && (forall n :: n in names <==> n in keys)
    && (forall i, j :: 0 <= i < j < |names| ==> names[i] != names[j])
  }

  /** `d.keys()`: the keys of a dict as a list, in an order the caller cannot rely on. */
  method ListKeys(keys: set<string>) returns (names: seq<string>)
    ensures Enumerates(names, keys)
    ensures |names| == |keys|
  {
    names := [];
    var remaining := keys;
    while remaining != {}
      invariant remaining <= keys
      invariant forall n :: n in names <==> n in keys && n !in remaining
      invariant forall i, j :: 0 <= i < j < |names| ==> names[i] != names[j]
      invariant |names| + |remaining| == |keys|
      decreases remaining
    {
      var n :| n in remaining;
      names := names + [n];
      remaining := remaining - {n};
    }
  }

  /** `locations_http + locations_https`. */
  function Expand(names: seq<string>): (r: seq<string>)
    ensures |r| == 2 * |names|
    ensures forall i :: 0 <= i < |names| ==> r[i] == HttpPrefix + names[i]
    ensures forall i :: 0 <= i < |names| ==> r[|names| + i] == HttpsPrefix + names[i]
  {
    seq(|names|, i requires 0 <= i < |names| => HttpPrefix + names[i])
      + seq(|names|, i requires 0 <= i < |names| => HttpsPrefix + names[i])
  }

  /** The scheme prefix of an expanded URL determines its scheme and name. */
  lemma PrefixInjective(a: string, b: string)
    ensures HttpPrefix + a != HttpsPrefix + b
    ensures HttpPrefix + a == HttpPrefix + b ==> a == b
    ensures HttpsPrefix + a == HttpsPrefix + b ==> a == b
  {
    assert (HttpPrefix + a)[4] != (HttpsPrefix + b)[4];
    if HttpPrefix + a == HttpPrefix + b {
      assert a == (HttpPrefix + a)[7..];
    }
    if HttpsPrefix + a == HttpsPrefix + b {
      assert a == (HttpsPrefix + a)[8..];
    }
  }

  /** Every candidate URL comes from a listed name, with one of the two schemes. */
  lemma ExpandFrom(names: seq<string>, u: string)
    ensures u in Expand(names) <==> exists n :: n in names && (u == HttpPrefix + n || u == HttpsPrefix + n)
  {
  }

  /** A name that is not listed (an exempt name, say) yields neither candidate URL. */
  lemma UnlistedNeverCandidate(names: seq<string>, n: string)
    requires n !in names
    ensures HttpPrefix + n !in Expand(names)
    ensures HttpsPrefix + n !in Expand(names)
  {
    ExpandFrom(names, HttpPrefix + n);
    ExpandFrom(names, HttpsPrefix + n);
    forall m | m in names
      ensures HttpPrefix + n != HttpPrefix + m && HttpPrefix + n != HttpsPrefix + m
      ensures HttpsPrefix + n != HttpPrefix + m && HttpsPrefix + n != HttpsPrefix + m
    {
      PrefixInjective(n, m);
      PrefixInjective(m, n);
    }
  }

  /** All `http://` URLs come first, then all `https://` URLs. */
  lemma ExpandSchemeOrder(names: seq<string>, i: nat)
    requires i < 2 * |names|
    ensures i < |names| <==> HttpPrefix <= Expand(names)[i]
    ensures |names| <= i <==> HttpsPrefix <= Expand(names)[i]
  {
    var u := Expand(names)[i];
    if i < |names| {
      assert u[..7] == HttpPrefix;
      assert u[4] != HttpsPrefix[4];
    } else {
      assert u[..8] == HttpsPrefix;
      assert u[4] != HttpPrefix[4];
    }
  }

  /** Position `i` of the expansion, in whichever half it falls. */
  lemma ExpandAt(names: seq<string>, i: nat)
    requires i < 2 * |names|
    ensures i < |names| ==> Expand(names)[i] == HttpPrefix + names[i]
    ensures |names| <= i ==> Expand(names)[i] == HttpsPrefix + names[i - |names|]
  {
    if |names| <= i {
      assert Expand(names)[|names| + (i - |names|)] == HttpsPrefix + names[i - |names|];
    }
  }

  /** Distinct names give distinct URLs: one `http://n` and one `https://n` per name. */
  lemma ExpandDistinct(names: seq<string>)
    requires forall i, j :: 0 <= i < j < |names| ==> names[i] != names[j]
    ensures forall i, j :: 0 <= i < j < |Expand(names)| ==> Expand(names)[i] != Expand(names)[j]
  {
    var r := Expand(names);
    var n := |names|;
    forall i, j | 0 <= i < j < |r|
      ensures r[i] != r[j]
    {
      ExpandAt(names, i);
      ExpandAt(names, j);
      if j < n {
        PrefixInjective(names[i], names[j]);
      } else if i < n {
        PrefixInjective(names[i], names[j - n]);
      } else {
        PrefixInjective(names[i - n], names[j - n]);
      }
    }
  }
}
