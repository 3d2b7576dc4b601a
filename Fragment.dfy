/**
 * The fragment codec of the hash-mode history: reading the route path out of
 * a full address (`getHash`) and building the address for a path (`getUrl`).
 * Both are string slicing; percent-decoding is the browser's `decodeURI`,
 * which this module takes as a parameter `decode`.
 */
module Fragment {

  /** `s.indexOf(c)`: the position of the first `c` in `s`, or -1. */
  function IndexOf(s: string, c: char): (r: int)
    ensures -1 <= r < |s|
    ensures r < 0 <==> c !in s
    ensures 0 <= r ==> FirstAt(s, c, r)
  {
    if s == [] then -1
    else if s[0] == c then 0
    else
      var k := IndexOf(s[1..], c);
      if k < 0 then -1
      else
        assert s[..k + 1] == [s[0]] + s[1..][..k];
        k + 1
  }

  /** Position `i` holds the first occurrence of `c` in `s`. */
  predicate FirstAt(s: string, c: char, i: int) {
    0 <= i < |s| && s[i] == c && c !in s[..i]
  }

  /** `path.charAt(0) === '/'` (false on the empty string). */
  predicate StartsWithSlash(s: string): (b: bool)
    ensures b <==> "/" <= s
  {
    |s| > 0 && s[0] == '/'
  }

  /** A character has at most one first occurrence. */
  lemma FirstAtUnique(s: string, c: char, i: int, j: int)
    requires FirstAt(s, c, i) && FirstAt(s, c, j)
    ensures i == j
  {
  }

  /**
   * The decoding step of `getHash`, applied to the text after the first `#`:
   * only the part before the first `?` (or, without a `?`, before the next
   * `#`) goes through `decode`; the rest is kept as it is.
   */
  function DecodeHash(rest: string, decode: string -> string): (d: string)
    ensures '?' !in rest && '#' !in rest ==> d == decode(rest)
  {
    var searchIndex := IndexOf(rest, '?');
    if searchIndex < 0 then
      var hashIndex := IndexOf(rest, '#');
      if hashIndex > -1 then decode(rest[..hashIndex]) + rest[hashIndex..]
      else decode(rest)
    else
      decode(rest[..searchIndex]) + rest[searchIndex..]
  }

  /** With a `?` in the fragment, the query from the first `?` on is never decoded. */
  lemma DecodeHashAtQuery(rest: string, decode: string -> string, q: int)
    requires FirstAt(rest, '?', q)
    ensures DecodeHash(rest, decode) == decode(rest[..q]) + rest[q..]
  {
    FirstAtUnique(rest, '?', q, IndexOf(rest, '?'));
  }

  /** Without a `?`, a second `#` and everything after it is never decoded. */
  lemma DecodeHashAtSecondHash(rest: string, decode: string -> string, h: int)
    requires '?' !in rest
    requires FirstAt(rest, '#', h)
    ensures DecodeHash(rest, decode) == decode(rest[..h]) + rest[h..]
  {
    FirstAtUnique(rest, '#', h, IndexOf(rest, '#'));
  }

  /** `getHash()` on the address `href`. */
  function HashOf(href: string, decode: string -> string): (r: string)
    ensures '#' !in href ==> r == ""
  {
    var index := IndexOf(href, '#');
    if index < 0 then "" else DecodeHash(href[index + 1..], decode)
  }

  /** `getHash()` reads exactly the text after the first `#`, decoded by `DecodeHash`. */
  lemma HashOfAfterFirstHash(href: string, decode: string -> string, k: int)
    requires FirstAt(href, '#', k)
    ensures HashOf(href, decode) == DecodeHash(href[k + 1..], decode)
  {
    FirstAtUnique(href, '#', k, IndexOf(href, '#'));
  }

  /** The part of `href` before its first `#`, or all of it when there is none. */
  function BeforeHash(href: string): (b: string)
    ensures b <= href && '#' !in b
    ensures |b| < |href| ==> href[|b|] == '#'
  {
    var i := IndexOf(href, '#');
    if i >= 0 then href[..i] else href
  }

  /** `getUrl(path)` on the address `href`. */
  function UrlFor(href: string, path: string): (u: string)
    ensures |u| == |BeforeHash(href)| + 1 + |path|
    ensures u[..|BeforeHash(href)|] == BeforeHash(href) && u[|BeforeHash(href)|] == '#'
    ensures u[|BeforeHash(href)| + 1..] == path
  {
    BeforeHash(href) + "#" + path
  }

  /** `getUrl` keeps the part of the address before the first `#`. */
  lemma UrlForKeepsBase(href: string, path: string)
    ensures BeforeHash(UrlFor(href, path)) == BeforeHash(href)
  {
    var b := BeforeHash(href);
    var u := UrlFor(href, path);
    assert FirstAt(u, '#', |b|);
    assert u[..|BeforeHash(u)|] == BeforeHash(u);
    FirstAtUnique(u, '#', |b|, |BeforeHash(u)|);
  }

  /** The fragment of `UrlFor(href, path)` is `path`, through the decoding step. */
  lemma HashOfUrlFor(href: string, path: string, decode: string -> string)
    ensures HashOf(UrlFor(href, path), decode) == DecodeHash(path, decode)
  {
    var b := BeforeHash(href);
    var u := UrlFor(href, path);
    assert u[..|b|] == b;
    assert FirstAt(u, '#', |b|);
    assert u[|b| + 1..] == path;
    HashOfAfterFirstHash(u, decode, |b|);
  }

  /** `decode` changes no prefix of `path`. */
  ghost predicate FixedByDecode(decode: string -> string, path: string) {
    forall k :: 0 <= k <= |path| ==> decode(path[..k]) == path[..k]
  }

  /** Where decoding leaves `rest` alone, so does the decoding step. */
  lemma DecodeHashFixed(rest: string, decode: string -> string)
    requires FixedByDecode(decode, rest)
    ensures DecodeHash(rest, decode) == rest
  {
    var q := IndexOf(rest, '?');
    var h := IndexOf(rest, '#');
    if q >= 0 {
      assert decode(rest[..q]) == rest[..q];
      assert rest[..q] + rest[q..] == rest;
    } else if h >= 0 {
      assert decode(rest[..h]) == rest[..h];
      assert rest[..h] + rest[h..] == rest;
    } else {
      assert decode(rest[..|rest|]) == rest[..|rest|];
      assert rest[..|rest|] == rest;
    }
  }

  /** Where decoding leaves `path` alone, `getHash()` reads back exactly `path`. */
  lemma UrlForReadsBack(href: string, path: string, decode: string -> string)
    requires FixedByDecode(decode, path)
    ensures HashOf(UrlFor(href, path), decode) == path
  {
    HashOfUrlFor(href, path, decode);
    DecodeHashFixed(path, decode);
  }

  /** Building an address twice keeps the original part before the `#`. */
  lemma UrlForReplacesFragment(href: string, p: string, q: string)
    ensures UrlFor(UrlFor(href, p), q) == UrlFor(href, q)
  {
    UrlForKeepsBase(href, p);
  }

  /** `decode` never removes a leading `/` (`decodeURI` leaves `/` as it is). */
  ghost predicate KeepsLeadingSlash(decode: string -> string) {
    forall s :: StartsWithSlash(s) ==> StartsWithSlash(decode(s))
  }

  /** The decoding step keeps a leading `/` when `decode` does. */
  lemma DecodeHashKeepsSlash(rest: string, decode: string -> string)
    requires KeepsLeadingSlash(decode)
    requires StartsWithSlash(rest)
    ensures StartsWithSlash(DecodeHash(rest, decode))
  {
    var q := IndexOf(rest, '?');
    var h := IndexOf(rest, '#');
    var cut := if q >= 0 then q else if h >= 0 then h else |rest|;
    var left := rest[..cut];
    assert cut > 0 && left[0] == '/';
    assert StartsWithSlash(left);
    assert StartsWithSlash(decode(left));
    if q < 0 && h < 0 {
      assert left == rest;
    }
  }

  /** A path that starts with `/` still reads back with a leading `/`. */
  lemma SlashSurvivesReadBack(href: string, path: string, decode: string -> string)
    requires KeepsLeadingSlash(decode)
    requires StartsWithSlash(path)
    ensures StartsWithSlash(HashOf(UrlFor(href, path), decode))
  {
    HashOfUrlFor(href, path, decode);
    DecodeHashKeepsSlash(path, decode);
  }
}
