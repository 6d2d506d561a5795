/**
 * The one regular expression of the plugin, `(http[s]*)://(.*)`, applied with
 * `re.search` semantics: the leftmost position where `http`, a run of `s`,
 * and `://` occur. Group 1 is the scheme, group 2 the rest of the string up
 * to (not including) the first newline, because `.` does not match `\n`.
 */
module Pattern {
  import opened Wrappers

  /** The two groups of a successful search. */
  datatype Match = Match(scheme: string, rest: string)

  /** `s` starts at position `i` with `http`, then `n` letters `s`, then `://`. */
  ghost predicate SchemeAt(s: string, i: nat, n: nat)
  {
    && i + n + 7 <= |s|
    && s[i..i + 4] == "http"
    && (forall m :: i + 4 <= m < i + 4 + n ==> s[m] == 's')
    && s[i + 4 + n..i + 7 + n] == "://"
  }

  /** Index just past the run of `s` characters that starts at `j` (`[s]*` is greedy). */
  function SRun(s: string, j: nat): (k: nat)
    requires j <= |s|
    ensures j <= k <= |s|
    ensures forall m :: j <= m < k ==> s[m] == 's'
    ensures k == |s| || s[k] != 's'
    decreases |s| - j
  {
    if j < |s| && s[j] == 's' then SRun(s, j + 1) else j
  }

  /** What `(.*)` captures: the longest prefix of `t` without a newline. */
  function Line(t: string): (r: string)
    ensures r <= t
    ensures '\n' !in r
    ensures r == t || t[|r|] == '\n'
  {
    if t == [] || t[0] == '\n' then [] else [t[0]] + Line(t[1..])
  }

  /** The match of the pattern anchored at position `i`, if any. */
  function MatchAt(s: string, i: nat): (r: Option<Match>)
    requires i <= |s|
    ensures r.Some? ==>
              && 4 <= |r.value.scheme|
              && SchemeAt(s, i, |r.value.scheme| - 4)
              && r.value.scheme == s[i..i + |r.value.scheme|]
              && r.value.rest == Line(s[i + |r.value.scheme| + 3..])
  {
    if i + 4 <= |s| && s[i..i + 4] == "http" then
      var k := SRun(s, i + 4);
      if k + 3 <= |s| && s[k..k + 3] == "://" then
        Some(Match(s[i..k], Line(s[k + 3..])))
      else
        None
    else
      None
  }

  /**
   * Backtracking cannot help `[s]*`: the pattern matches at `i` exactly when
   * some count of `s` letters works, and then the greedy count is that count.
   */
  lemma MatchAtExact(s: string, i: nat, n: nat)
    requires i <= |s|
    ensures SchemeAt(s, i, n) <==> MatchAt(s, i).Some? && |MatchAt(s, i).value.scheme| == n + 4
  {
    if SchemeAt(s, i, n) {
      var k := SRun(s, i + 4);
      assert s[i + 4 + n] == "://"[0];
      assert k == i + 4 + n;
      assert s[i..k] == s[i..i + 4 + n];
    }
  }

  /** No match is anchored at any position in `[i, p)`. */
  ghost predicate NoMatchIn(s: string, i: nat, p: nat)
    requires i <= p <= |s| + 1
  {
    forall q :: i <= q < p ==> MatchAt(s, q).None?
  }

  /** The leftmost position at or after `i` where the pattern matches. */
  function SearchFrom(s: string, i: nat): (r: Option<nat>)
    requires i <= |s|
    ensures r.Some? ==> i <= r.value <= |s| && MatchAt(s, r.value).Some? && NoMatchIn(s, i, r.value)
    ensures r.None? ==> NoMatchIn(s, i, |s| + 1)
    decreases |s| - i
  {
    if MatchAt(s, i).Some? then Some(i)
    else if i == |s| then None
    else SearchFrom(s, i + 1)
  }

  /** `re.search('(http[s]*)://(.*)', s)`: the match at the leftmost position that has one. */
  function Search(s: string): (r: Option<Match>)
    ensures r.None? <==> NoMatchIn(s, 0, |s| + 1)
    ensures r.Some? ==> exists p :: 0 <= p <= |s| && MatchAt(s, p) == r && NoMatchIn(s, 0, p)
  {
    match SearchFrom(s, 0)
    case Some(p) => MatchAt(s, p)
    case None => None
  }

  /** A string without the letter `h` (such as `unprotected` or `-`) never matches. */
  lemma {:induction false} NoHNoMatch(s: string)
    ensures 'h' !in s ==> Search(s) == None
  {
    if 'h' !in s {
      forall q | 0 <= q <= |s|
        ensures MatchAt(s, q).None?
      {
        if q + 4 <= |s| {
          assert s[q..q + 4][0] == s[q];
        }
      }
    }
  }

  /** A URL of the form `http://x` matches at its start with scheme `http`. */
  lemma SearchHttp(x: string)
    ensures Search("http://" + x) == Some(Match("http", Line(x)))
  {
    var s := "http://" + x;
    assert s[0..4] == "http";
    assert SRun(s, 4) == 4 by { assert s[4] == ':'; }
    assert s[4..7] == "://";
    assert s[7..] == x;
  }

  /** A URL of the form `https://x` matches at its start with scheme `https`. */
  lemma SearchHttps(x: string)
    ensures Search("https://" + x) == Some(Match("https", Line(x)))
  {
    var s := "https://" + x;
    assert s[0..4] == "http";
    assert SRun(s, 5) == 5 by { assert s[5] == ':'; }
    assert SRun(s, 4) == 5 by { assert s[4] == 's'; }
    assert s[5..8] == "://";
    assert s[0..5] == "https";
    assert s[8..] == x;
  }
}
