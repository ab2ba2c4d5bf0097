/**
 * The part of Python's `urllib.parse.urlsplit` the detectors read: the
 * network location (`netloc`) of a URL, the host name before a port, and
 * the dotted-quad test the lexical detector applies to it.
 */
module Urls {
  import opened Text

  /** Index of the first `c` in `s` at or after `from`, or `|s|` when there is none. */
  function IndexFrom(s: string, c: char, from: nat): (r: nat)
    requires from <= |s|
    ensures from <= r <= |s|
    ensures r < |s| ==> s[r] == c
    ensures forall k :: from <= k < r ==> s[k] != c
    decreases |s| - from
  {
    if from == |s| then from
    else if s[from] == c then from
    else IndexFrom(s, c, from + 1)
  }

  predicate IsAsciiAlpha(c: char) {
    'a' <= c <= 'z' || 'A' <= c <= 'Z'
  }

  /** `urllib.parse.scheme_chars`: letters, digits, '+', '-' and '.'. */
  predicate IsSchemeChar(c: char) {
    IsAsciiAlpha(c) || '0' <= c <= '9' || c == '+' || c == '-' || c == '.'
  }

  predicate SchemeCharsBetween(s: string, from: nat, to: nat)
    requires from <= to <= |s|
    decreases |s| - from
  {
    from == to || (IsSchemeChar(s[from]) && SchemeCharsBetween(s, from + 1, to))
  }

  /**
   * Where urlsplit's remainder starts: just after `scheme:` when the text
   * before the first ':' is a non-empty scheme starting with a letter, else 0.
   */
  function SchemeEnd(url: string): (r: nat)
    ensures r <= |url|
    ensures r > 0 ==> url[r - 1] == ':'
  {
    var i := IndexFrom(url, ':', 0);
    if 0 < i < |url| && IsAsciiAlpha(url[0]) && SchemeCharsBetween(url, 0, i) then i + 1 else 0
  }

  predicate IsAuthorityDelimiter(c: char) {
    c == '/' || c == '?' || c == '#'
  }

  /** The first index at or after `from` holding '/', '?' or '#', or `|s|`. */
  function AuthorityEnd(s: string, from: nat): (r: nat)
    requires from <= |s|
    ensures from <= r <= |s|
    ensures r < |s| ==> IsAuthorityDelimiter(s[r])
    ensures forall k :: from <= k < r ==> !IsAuthorityDelimiter(s[k])
    decreases |s| - from
  {
    if from == |s| then from
    else if IsAuthorityDelimiter(s[from]) then from
    else AuthorityEnd(s, from + 1)
  }

  /**
   * `urlsplit(url).netloc`: after the optional scheme, a remainder starting
   * with "//" carries a network location that runs up to the next '/', '?'
   * or '#'; any other remainder has an empty one.
   */
  function Netloc(url: string): (r: string)
    ensures forall k :: 0 <= k < |r| ==> !IsAuthorityDelimiter(r[k])
    ensures |r| <= |url|
  {
    var start := SchemeEnd(url);
    if start + 2 <= |url| && url[start] == '/' && url[start + 1] == '/' then
      url[start + 2..AuthorityEnd(url, start + 2)]
    else
      ""
  }

  /** The network location of an already lower-cased URL is lower case. */
  lemma NetlocOfLowerIsLower(url: string)
    requires IsLower(url)
    ensures IsLower(Netloc(url))
  {
    var start := SchemeEnd(url);
    if start + 2 <= |url| && url[start] == '/' && url[start + 1] == '/' {
      var n := Netloc(url);
      forall k | 0 <= k < |n| ensures LowerChar(n[k]) == n[k] {
        assert n[k] == url[start + 2 + k];
      }
    }
  }

  /** The host of `http://host` is `host`, whenever `host` has no '/', '?' or '#'. */
  lemma HttpNetloc(host: string)
    requires forall k :: 0 <= k < |host| ==> !IsAuthorityDelimiter(host[k])
    ensures Netloc("http://" + host) == host
  {
    var url := "http://" + host;
    assert url[0] == 'h' && url[1] == 't' && url[2] == 't' && url[3] == 'p' && url[4] == ':';
    assert url[5] == '/' && url[6] == '/';
    assert IndexFrom(url, ':', 0) == 4;
    assert SchemeCharsBetween(url, 3, 4);
    assert SchemeCharsBetween(url, 1, 4);
    assert SchemeCharsBetween(url, 0, 4);
    assert SchemeEnd(url) == 5;
    assert AuthorityEnd(url, 7) == |url|;
    assert url[7..] == host;
  }

  /** The host of `http://host/...`: the network location stops at the path, query or fragment. */
  lemma HttpNetlocBeforePath(host: string, rest: string)
    requires forall k :: 0 <= k < |host| ==> !IsAuthorityDelimiter(host[k])
    requires rest != [] && IsAuthorityDelimiter(rest[0])
    ensures Netloc("http://" + host + rest) == host
  {
    var url := "http://" + host + rest;
    assert url[0] == 'h' && url[1] == 't' && url[2] == 't' && url[3] == 'p' && url[4] == ':';
    assert url[5] == '/' && url[6] == '/';
    assert IndexFrom(url, ':', 0) == 4;
    assert SchemeCharsBetween(url, 3, 4);
    assert SchemeCharsBetween(url, 1, 4);
    assert SchemeCharsBetween(url, 0, 4);
    assert SchemeEnd(url) == 5;
    assert url[7 + |host|] == rest[0];
    assert AuthorityEnd(url, 7) == 7 + |host|;
    assert url[7..7 + |host|] == host;
  }

  /** `urlsplit(url).netloc.split(':')[0]`: the host name without a port. */
  function Hostname(url: string): (r: string)
    ensures ':' !in r
    ensures r <= Netloc(url)
  {
    var n := Netloc(url);
    n[..IndexFrom(n, ':', 0)]
  }

  /** The index just past the run of ASCII digits starting at `from`. */
  function DigitsEnd(s: string, from: nat): (r: nat)
    requires from <= |s|
    ensures from <= r <= |s|
    ensures forall k :: from <= k < r ==> '0' <= s[k] <= '9'
    ensures r < |s| ==> !('0' <= s[r] <= '9')
    decreases |s| - from
  {
    if from < |s| && '0' <= s[from] <= '9' then DigitsEnd(s, from + 1) else from
  }

  /** Groups `group`..3 of a dotted quad, the first of them starting at `from`. */
  predicate QuadFrom(s: string, from: nat, group: nat)
    requires from <= |s| && group <= 3
    decreases 3 - group
  {
    var e := DigitsEnd(s, from);
    && 1 <= e - from <= 3
    && if group == 3 then e == |s|
       else e < |s| && s[e] == '.' && QuadFrom(s, e + 1, group + 1)
  }

  /**
   * A full match of `^(?:[0-9]{1,3}\.){3}[0-9]{1,3}$`: four runs of one to
   * three ASCII digits joined by dots, and nothing else. Because digits and
   * dots are disjoint, reading each run greedily is the only way to match.
   */
  predicate IsDottedQuad(s: string) {
    QuadFrom(s, 0, 0)
  }

  /** The dotted-quad test on an IP address, on too few groups and on a domain name. */
  lemma DottedQuadExamples()
    ensures IsDottedQuad("192.168.1.1")
    ensures !IsDottedQuad("1.2.3")
    ensures !IsDottedQuad("legit.com")
  {
  }
}
