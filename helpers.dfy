/**
 * The expression-only helpers of the userscript: selector and endpoint
 * builders, series-ID extraction, the cache expiry test and the title
 * normaliser.
 */
module Helpers {
  import opened Wrappers

  const SERIES_TITLE_CLASS: string := "series-main_title"
  const SERIES_CONTENT_CLASS: string := "series-main_content"
  const TVER_SERIES_URL: string := "https://tver.jp/series/"
  const FM_API_BASE_URL: string := "https://markuapi.onrender.com"
  const MDL_API_BASE_URL: string := "https://kuryana.tbdh.app"

  /** Seven days in milliseconds. */
  const WEEK_MS: int := 604800000

  /** `s` begins with `prefix` (String.prototype.startsWith). */
  predicate StartsWith(s: string, prefix: string) {
    prefix <= s
  }

  // ---------------------------------------------------------------------------
  // Selector and endpoint builders
  // ---------------------------------------------------------------------------

  /** The CSS attribute selector `[class^=<className>]`. */
  function SelectorClassStartsWith(className: string): (sel: string)
    ensures |sel| == |className| + 9
    ensures sel[..8] == "[class^=" && sel[8..|sel| - 1] == className && sel[|sel| - 1] == ']'
  {
    "[class^=" + className + "]"
  }

  /** Different class names never give the same selector. */
  lemma SelectorInjective(a: string, b: string)
    requires SelectorClassStartsWith(a) == SelectorClassStartsWith(b)
    ensures a == b
  {
    var s := SelectorClassStartsWith(a);
    assert a == s[8..|s| - 1];
  }

  /** The query is pasted into the path without any escaping. */
  function FmSearchDramasEndpoint(query: string): (url: string)
    ensures StartsWith(url, FM_API_BASE_URL + "/search/dramas/")
    ensures url[|FM_API_BASE_URL + "/search/dramas/"|..] == query
  {
    FM_API_BASE_URL + "/search/dramas/" + query
  }

  function MdlSearchDramasEndpoint(query: string): (url: string)
    ensures StartsWith(url, MDL_API_BASE_URL + "/search/q/")
    ensures url[|MDL_API_BASE_URL + "/search/q/"|..] == query
  {
    MDL_API_BASE_URL + "/search/q/" + query
  }

  function MdlGetDramaInfoEndpoint(slug: string): (url: string)
    ensures StartsWith(url, MDL_API_BASE_URL + "/id/")
    ensures url[|MDL_API_BASE_URL + "/id/"|..] == slug
  {
    MDL_API_BASE_URL + "/id/" + slug
  }

  // ---------------------------------------------------------------------------
  // Series ID: the leftmost match of `sr` and eight or nine ID characters
  // ---------------------------------------------------------------------------

  /** The character class `[a-z0-9]`. */
  predicate IsIdChar(c: char) {
    ('a' <= c <= 'z') || ('0' <= c <= '9')
  }

  /** The pattern `sr[a-z0-9]{8,9}` has a match starting at index `i` of `s`. */
  predicate MatchesAt(s: string, i: nat) {
    && i + 10 <= |s|
    && s[i] == 's' && s[i + 1] == 'r'
    && forall k :: i + 2 <= k < i + 10 ==> IsIdChar(s[k])
  }

  /** `i` is the leftmost index at which the pattern matches. */
  predicate IsLeftmostMatch(s: string, i: nat) {
    MatchesAt(s, i) && forall j: nat :: j < i ==> !MatchesAt(s, j)
  }

  /** The quantifier `{8,9}` is greedy: a ninth class character is taken when there is one. */
  function MatchLength(s: string, i: nat): (n: nat)
    requires MatchesAt(s, i)
    ensures i + n <= |s|
  {
    if i + 10 < |s| && IsIdChar(s[i + 10]) then 11 else 10
  }

  /** The regular-expression engine's scan: try each start index from `from` on. */
  function LeftmostMatchFrom(s: string, from: nat): (r: Option<nat>)
    ensures r.Some? ==> from <= r.value && MatchesAt(s, r.value)
    ensures r.Some? ==> forall j: nat :: from <= j < r.value ==> !MatchesAt(s, j)
    ensures r.None? ==> forall j: nat :: from <= j ==> !MatchesAt(s, j)
    decreases |s| - from
  {
    if |s| < from + 10 then None
    else if MatchesAt(s, from) then Some(from)
    else LeftmostMatchFrom(s, from + 1)
  }

  /**
   * retrieveSeriesIDFromSeriesURL. `None` stands for the `null` that `match`
   * returns when nothing matches; the source then indexes it and throws.
   */
  function RetrieveSeriesIDFromSeriesURL(url: string): (id: Option<string>)
    ensures id.None? <==> forall i: nat :: !MatchesAt(url, i)
    ensures id.Some? ==> exists i: nat :: IsLeftmostMatch(url, i) && id.value == url[i..i + MatchLength(url, i)]
  {
    match LeftmostMatchFrom(url, 0)
    case None => None
    case Some(i) =>
      assert IsLeftmostMatch(url, i);
      Some(url[i..i + MatchLength(url, i)])
  }

  /** An extracted ID is `sr` followed by eight or nine characters of `[a-z0-9]`. */
  lemma SeriesIDShape(url: string)
    requires RetrieveSeriesIDFromSeriesURL(url).Some?
    ensures var id := RetrieveSeriesIDFromSeriesURL(url).value;
      && (|id| == 10 || |id| == 11)
      && id[0] == 's' && id[1] == 'r'
      && forall k :: 2 <= k < |id| ==> IsIdChar(id[k])
  {
    var id := RetrieveSeriesIDFromSeriesURL(url).value;
    var i: nat :| IsLeftmostMatch(url, i) && id == url[i..i + MatchLength(url, i)];
    assert forall k :: 2 <= k < |id| ==> id[k] == url[i + k];
  }

  /** The series path itself never contains `sr`, so no match can start inside it. */
  lemma SeriesPrefixHasNoMatchStart(url: string, tail: string)
    requires url == TVER_SERIES_URL + tail
    ensures forall j :: 0 <= j < |TVER_SERIES_URL| ==> url[j] != 's' || url[j + 1] != 'r'
  {
    var p := TVER_SERIES_URL;
    assert forall j :: 0 <= j < |p| ==> url[j] == p[j];
    assert p[4] == 's' && p[5] == ':';
    assert p[16] == 's' && p[17] == 'e';
    assert p[21] == 's' && p[22] == '/';
    assert forall j :: 0 <= j < |p| && j != 4 && j != 16 && j != 21 ==> p[j] != 's';
  }

  /** A typical series URL yields its ID `sr12345678`. */
  lemma SeriesIDExample()
    ensures RetrieveSeriesIDFromSeriesURL("https://tver.jp/series/sr12345678") == Some("sr12345678")
  {
    var url := "https://tver.jp/series/sr12345678";
    assert url == TVER_SERIES_URL + "sr12345678";
    SeriesPrefixHasNoMatchStart(url, "sr12345678");
    assert MatchesAt(url, 23);
    assert IsLeftmostMatch(url, 23);
    assert MatchLength(url, 23) == 10;
    var id := RetrieveSeriesIDFromSeriesURL(url);
    var i: nat :| IsLeftmostMatch(url, i) && id.value == url[i..i + MatchLength(url, i)];
    assert i == 23;
    assert url[23..33] == "sr12345678";
  }

  /** A series-path URL whose last segment is not an ID yields nothing. */
  lemma MalformedSeriesURLHasNoID()
    ensures RetrieveSeriesIDFromSeriesURL("https://tver.jp/series/abc") == None
  {
    var url := "https://tver.jp/series/abc";
    assert url == TVER_SERIES_URL + "abc";
    SeriesPrefixHasNoMatchStart(url, "abc");
    assert forall j: nat :: !MatchesAt(url, j);
  }

  // ---------------------------------------------------------------------------
  // Cache expiry
  // ---------------------------------------------------------------------------

  /** isTimestampExpired, with `Date.now()` passed in as `now`. */
  function IsTimestampExpired(timestamp: int, now: int): (expired: bool)
    ensures expired <==> now - timestamp > WEEK_MS
  {
    timestamp < now - WEEK_MS
  }

  /** An entry exactly seven days old is still fresh; one millisecond later it has expired. */
  lemma ExpiryBoundary(timestamp: int)
    ensures !IsTimestampExpired(timestamp, timestamp + WEEK_MS)
    ensures IsTimestampExpired(timestamp, timestamp + WEEK_MS + 1)
  {
  }

  /** Once expired, an entry stays expired as the clock advances. */
  lemma ExpiryMonotone(timestamp: int, now: int, later: int)
    requires now <= later
    ensures IsTimestampExpired(timestamp, now) ==> IsTimestampExpired(timestamp, later)
  {
  }

  // ---------------------------------------------------------------------------
  // Title normaliser
  // ---------------------------------------------------------------------------

  /** Hyphen-minus, en dash, em dash, minus sign and horizontal bar. */
  const DASHES: set<char> := {'-', '\U{2013}', '\U{2014}', '\U{2212}', '\U{2015}'}
  /** Tilde and its wide, wave, swung-dash, operator, small and wavy-line look-alikes. */
  const TILDES: set<char> := {'~', '\U{FF5E}', '\U{301C}', '\U{2053}', '\U{223C}', '\U{02DC}', '\U{02F7}', '\U{FE4F}', '\U{FE4B}'}
  /** Solidus, fullwidth solidus, division slash and fraction slash. */
  const SLASHES: set<char> := {'/', '\U{FF0F}', '\U{2215}', '\U{2044}'}
  /** ASCII and fullwidth parentheses. */
  const PARENS: set<char> := {'(', ')', '\U{FF08}', '\U{FF09}'}
  /** The JavaScript class `\s`: white space and line terminators. */
  const WHITESPACE: set<char> := {
    '\t', '\n', '\U{000B}', '\U{000C}', '\r', ' ', '\U{00A0}', '\U{1680}',
    '\U{2000}', '\U{2001}', '\U{2002}', '\U{2003}', '\U{2004}', '\U{2005}',
    '\U{2006}', '\U{2007}', '\U{2008}', '\U{2009}', '\U{200A}',
    '\U{2028}', '\U{2029}', '\U{202F}', '\U{205F}', '\U{3000}', '\U{FEFF}'}

  /** Every glyph one of the five replacements deletes. */
  const STRIPPED: set<char> := DASHES + TILDES + SLASHES + PARENS + WHITESPACE

  /** A global replace of a character class by the empty string: each character of `glyphs` is deleted, every other one kept. */
  function RemoveAll(s: string, glyphs: set<char>): (r: string)
    ensures |r| <= |s|
    ensures forall c {:trigger multiset(r)[c]} :: multiset(r)[c] == if c in glyphs then 0 else multiset(s)[c]
  {
    if s == [] then []
    else
      assert s == [s[0]] + s[1..];
      (if s[0] in glyphs then [] else [s[0]]) + RemoveAll(s[1..], glyphs)
  }

  /** Deletion distributes over concatenation, so the kept characters stay in their order. */
  lemma {:induction false} RemoveAllConcat(a: string, b: string, glyphs: set<char>)
    ensures RemoveAll(a + b, glyphs) == RemoveAll(a, glyphs) + RemoveAll(b, glyphs)
  {
    if a == [] {
      assert a + b == b;
    } else {
      assert (a + b)[1..] == a[1..] + b;
      RemoveAllConcat(a[1..], b, glyphs);
    }
  }

  /** A string none of whose characters is deleted comes back unchanged. */
  lemma {:induction false} RemoveAllKeeps(s: string, glyphs: set<char>)
    requires forall k :: 0 <= k < |s| ==> s[k] !in glyphs
    ensures RemoveAll(s, glyphs) == s
  {
    if s != [] {
      RemoveAllKeeps(s[1..], glyphs);
    }
  }

  /** Two deletion passes are one pass over the union of their classes. */
  lemma {:induction false} RemoveAllTwice(s: string, g1: set<char>, g2: set<char>)
    ensures RemoveAll(RemoveAll(s, g1), g2) == RemoveAll(s, g1 + g2)
  {
    if s != [] {
      RemoveAllTwice(s[1..], g1, g2);
      var head := if s[0] in g1 then [] else [s[0]];
      RemoveAllConcat(head, RemoveAll(s[1..], g1), g2);
    }
  }

  /**
   * The five chained `replace` calls of normaliseTitle, before NFKC. They
   * delete exactly the union of the five classes.
   */
  function StripGlyphs(query: string): (r: string)
    ensures r == RemoveAll(query, STRIPPED)
  {
    var noDashes := RemoveAll(query, DASHES);
    var noTildes := RemoveAll(noDashes, TILDES);
    var noSlashes := RemoveAll(noTildes, SLASHES);
    var noParens := RemoveAll(noSlashes, PARENS);
    RemoveAllTwice(query, DASHES, TILDES);
    RemoveAllTwice(query, DASHES + TILDES, SLASHES);
    RemoveAllTwice(query, DASHES + TILDES + SLASHES, PARENS);
    RemoveAllTwice(query, DASHES + TILDES + SLASHES + PARENS, WHITESPACE);
    RemoveAll(noParens, WHITESPACE)
  }

  /** normaliseTitle: strip the glyphs, then apply NFKC normalisation, given here as `nfkc`. */
  function NormaliseTitle(nfkc: string -> string, query: string): (r: string)
    ensures r == nfkc(RemoveAll(query, STRIPPED))
  {
    nfkc(StripGlyphs(query))
  }

  /**
   * The normaliser is not idempotent: NFKC maps the fullwidth hyphen-minus
   * U+FF0D, which no class deletes, to `-`, which a second pass deletes.
   */
  lemma NormaliseNotIdempotent(nfkc: string -> string)
    requires nfkc("\U{FF0D}") == "-" && nfkc("") == ""
    ensures NormaliseTitle(nfkc, NormaliseTitle(nfkc, "\U{FF0D}")) != NormaliseTitle(nfkc, "\U{FF0D}")
  {
    WideHyphenSurvives();
    HyphenDeleted();
    assert NormaliseTitle(nfkc, "\U{FF0D}") == "-";
  }

  /** No class deletes the fullwidth hyphen-minus. */
  lemma WideHyphenSurvives()
    ensures RemoveAll("\U{FF0D}", STRIPPED) == "\U{FF0D}"
  {
    var wide := "\U{FF0D}";
    assert wide[0] !in DASHES && wide[0] !in TILDES && wide[0] !in SLASHES;
    assert wide[0] !in PARENS && wide[0] !in WHITESPACE;
    assert wide[1..] == [];
  }

  /** The ASCII hyphen-minus is a dash and is deleted. */
  lemma HyphenDeleted()
    ensures RemoveAll("-", STRIPPED) == ""
  {
    var minus := "-";
    assert minus[0] in STRIPPED;
    assert minus[1..] == [];
  }

  /**
   * A second pass changes nothing when NFKC leaves no deletable glyph behind
   * and NFKC is idempotent on its own output.
   */
  lemma NormaliseIdempotentWhen(nfkc: string -> string, query: string)
    requires var n := NormaliseTitle(nfkc, query); (forall k :: 0 <= k < |n| ==> n[k] !in STRIPPED) && nfkc(n) == n
    ensures NormaliseTitle(nfkc, NormaliseTitle(nfkc, query)) == NormaliseTitle(nfkc, query)
  {
    RemoveAllKeeps(NormaliseTitle(nfkc, query), STRIPPED);
  }

  // ---------------------------------------------------------------------------
  // String containment
  // ---------------------------------------------------------------------------

  /** String.prototype.includes: `t` occurs in `s` at some index. */
  predicate Includes(s: string, t: string)
    decreases |s|
  {
    t <= s || (|s| > 0 && Includes(s[1..], t))
  }

  /** `includes` holds exactly when `t` is a prefix of some suffix of `s`. */
  lemma {:induction false} IncludesAt(s: string, t: string)
    ensures Includes(s, t) <==> exists i :: 0 <= i <= |s| && t <= s[i..]
  {
    if Includes(s, t) {
      if t <= s {
        assert s[0..] == s;
        assert 0 <= 0 <= |s| && t <= s[0..];
      } else {
        IncludesAt(s[1..], t);
        var i :| 0 <= i <= |s| - 1 && t <= s[1..][i..];
        assert s[1..][i..] == s[i + 1..];
        assert 0 <= i + 1 <= |s| && t <= s[i + 1..];
      }
    }
    if exists i :: 0 <= i <= |s| && t <= s[i..] {
      var i :| 0 <= i <= |s| && t <= s[i..];
      if i == 0 {
        assert s[i..] == s;
      } else {
        assert s[1..][i - 1..] == s[i..];
        assert 0 <= i - 1 <= |s[1..]| && t <= s[1..][i - 1..];
        IncludesAt(s[1..], t);
      }
    }
  }

  /** Every string includes the empty string. */
  lemma IncludesEmpty(s: string)
    ensures Includes(s, "")
  {
  }

  /** A string can only include strings no longer than itself. */
  lemma {:induction false} IncludesShorter(s: string, t: string)
    requires Includes(s, t)
    ensures |t| <= |s|
  {
    if !(t <= s) {
      IncludesShorter(s[1..], t);
    }
  }
}
