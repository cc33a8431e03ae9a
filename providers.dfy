/**
 * The two rating providers, Filmarks ("fm") and MyDramaList ("mdl"): the
 * records they produce, the HTTP outcomes they consume, the candidate
 * selection each applies, and the cache-first settling of one provider.
 */
module Providers {
  import opened Wrappers
  import opened Helpers

  datatype Provider = FM | MDL

  /** Both providers, in the order the userscript visits them. */
  const PROVIDERS: seq<Provider> := [FM, MDL]

  lemma AllProvidersListed()
    ensures forall p: Provider :: p in PROVIDERS
  {
    forall p: Provider ensures p in PROVIDERS {
      if p == FM { assert PROVIDERS[0] == p; } else { assert PROVIDERS[1] == p; }
    }
  }

  /** The property name in `seriesData` / `seriesElements` and the cache-key suffix. */
  function Name(p: Provider): string {
    match p
    case FM => "fm"
    case MDL => "mdl"
  }

  /** The rating a failed lookup carries. */
  function Sentinel(p: Provider): string {
    match p
    case FM => "-"
    case MDL => "N/A"
  }

  /** `{ rating, link, timestamp }`; `link` is `null` when absent. */
  datatype Record = Record(rating: string, link: Option<string>, timestamp: int)

  /** The record a lookup starts from and returns on every failure. */
  function SentinelRecord(p: Provider, now: int): Record
  {
    Record(Sentinel(p), None, now)
  }

  /** JavaScript truthiness of a link: present and not the empty string. */
  predicate LinkTruthy(link: Option<string>) {
    link.Some? && link.value != ""
  }

  /** The series ID, a hyphen and the provider name; an unset series ID prints as "undefined". */
  function CacheKey(seriesID: Option<string>, p: Provider): string {
    (match seriesID case Some(id) => id case None => "undefined") + "-" + Name(p)
  }

  /** The two providers' keys never collide, whatever the IDs. */
  lemma CacheKeysDistinct(a: Option<string>, b: Option<string>)
    ensures CacheKey(a, FM) != CacheKey(b, MDL)
  {
    var ka, kb := CacheKey(a, FM), CacheKey(b, MDL);
    assert ka[|ka| - 1] == 'm';
    assert kb[|kb| - 1] == 'l';
  }

  /** Different series IDs have different keys for the same provider. */
  lemma CacheKeyInjective(a: string, b: string, p: Provider)
    requires CacheKey(Some(a), p) == CacheKey(Some(b), p)
    ensures a == b
  {
    var k := CacheKey(Some(a), p);
    assert |a| == |b|;
    assert a == k[..|a|];
    assert b == CacheKey(Some(b), p)[..|b|];
  }

  // ---------------------------------------------------------------------------
  // HTTP outcomes, given as inputs
  // ---------------------------------------------------------------------------

  /** One entry of the Filmarks search result `dramas`. */
  datatype FmDrama = FmDrama(title: string, rating: string, link: Option<string>)

  /** The Filmarks search: an ok response with its `dramas`, or any failure. */
  datatype FmSearchResponse = FmOk(dramas: seq<FmDrama>) | FmError

  /** One entry of the MyDramaList search result `results.dramas`. */
  datatype MdlDrama = MdlDrama(title: string, dramaType: string, year: string, slug: string)

  datatype MdlSearchResponse = MdlOk(dramas: seq<MdlDrama>) | MdlError

  /** The MyDramaList detail response `data: { rating, link }`, or any failure. */
  datatype MdlInfoResponse = InfoOk(rating: string, link: Option<string>) | InfoError

  /** What `fetch` answers for each endpoint URL. */
  datatype Web = Web(
    fmSearch: string -> FmSearchResponse,
    mdlSearch: string -> MdlSearchResponse,
    mdlInfo: string -> MdlInfoResponse)

  /** Only candidates at indices 0, 1 and 2 are examined (the loop breaks at index 3). */
  const SCAN_WINDOW: nat := 3

  const MDL_DRAMA_TYPES: seq<string> := ["Japanese Drama", "Japanese TV Show"]

  // ---------------------------------------------------------------------------
  // Filmarks
  // ---------------------------------------------------------------------------

  /** The normalised query contains, or is contained in, the normalised candidate title. */
  predicate FmTitleMatch(nfkc: string -> string, title: string, candidate: string) {
    var titleSearch := NormaliseTitle(nfkc, title);
    var titleFM := NormaliseTitle(nfkc, candidate);
    Includes(titleSearch, titleFM) || Includes(titleFM, titleSearch)
  }

  /** The first index from `from` on, inside the scan window, whose title matches. */
  function FmFirstMatch(nfkc: string -> string, title: string, dramas: seq<FmDrama>, from: nat): (k: Option<nat>)
    ensures k.Some? ==> from <= k.value < |dramas| && k.value < SCAN_WINDOW
    ensures k.Some? ==> FmTitleMatch(nfkc, title, dramas[k.value].title)
    ensures k.Some? ==> forall j :: from <= j < k.value ==> !FmTitleMatch(nfkc, title, dramas[j].title)
    ensures k.None? ==> forall j :: from <= j < |dramas| && j < SCAN_WINDOW ==> !FmTitleMatch(nfkc, title, dramas[j].title)
    decreases |dramas| - from
  {
    if from >= |dramas| || from >= SCAN_WINDOW then None
    else if FmTitleMatch(nfkc, title, dramas[from].title) then Some(from)
    else FmFirstMatch(nfkc, title, dramas, from + 1)
  }

  /** The matched candidate of a Filmarks search, or `None` on every failure. */
  function FmLookup(nfkc: string -> string, title: string, response: FmSearchResponse): Option<FmDrama>
  {
    match response
    case FmError => None
    case FmOk(dramas) =>
      if |dramas| == 0 then None
      else
        match FmFirstMatch(nfkc, title, dramas, 0)
        case None => None
        case Some(i) => Some(dramas[i])
  }

  /**
   * The Filmarks lookup finds a candidate exactly when one of the first
   * three matches the title, and then it is the first such candidate.
   */
  lemma FmLookupSpec(nfkc: string -> string, title: string, response: FmSearchResponse)
    ensures var m := FmLookup(nfkc, title, response);
      m.Some? <==> response.FmOk? && exists i :: 0 <= i < |response.dramas| && i < SCAN_WINDOW && FmTitleMatch(nfkc, title, response.dramas[i].title)
    ensures var m := FmLookup(nfkc, title, response);
      m.Some? ==> exists i :: (0 <= i < |response.dramas| && i < SCAN_WINDOW && m.value == response.dramas[i]
        && FmTitleMatch(nfkc, title, response.dramas[i].title)
        && forall j :: 0 <= j < i ==> !FmTitleMatch(nfkc, title, response.dramas[j].title))
  {
  }

  /** Candidates after the scan window never influence the Filmarks lookup. */
  lemma {:induction false} FmFirstMatchWindow(nfkc: string -> string, title: string, dramas: seq<FmDrama>, rest: seq<FmDrama>, from: nat)
    requires |dramas| >= SCAN_WINDOW
    ensures FmFirstMatch(nfkc, title, dramas + rest, from) == FmFirstMatch(nfkc, title, dramas, from)
    decreases SCAN_WINDOW - from
  {
    var whole := dramas + rest;
    if from < SCAN_WINDOW {
      assert whole[from] == dramas[from];
      FmFirstMatchWindow(nfkc, title, dramas, rest, from + 1);
      if FmTitleMatch(nfkc, title, dramas[from].title) {
        assert FmFirstMatch(nfkc, title, whole, from) == Some(from);
      } else {
        assert FmFirstMatch(nfkc, title, whole, from) == FmFirstMatch(nfkc, title, whole, from + 1);
      }
    } else {
      assert FmFirstMatch(nfkc, title, whole, from) == None;
    }
  }

  lemma FmLookupWindow(nfkc: string -> string, title: string, dramas: seq<FmDrama>, rest: seq<FmDrama>)
    requires |dramas| >= SCAN_WINDOW
    ensures FmLookup(nfkc, title, FmOk(dramas + rest)) == FmLookup(nfkc, title, FmOk(dramas))
  {
    FmFirstMatchWindow(nfkc, title, dramas, rest, 0);
    assert (dramas + rest)[..|dramas|] == dramas;
  }

  /** A title that normalises to the empty string matches the first candidate, whatever it is. */
  lemma FmEmptyQueryTakesFirst(nfkc: string -> string, title: string, dramas: seq<FmDrama>)
    requires NormaliseTitle(nfkc, title) == "" && |dramas| > 0
    ensures FmLookup(nfkc, title, FmOk(dramas)) == Some(dramas[0])
  {
    IncludesEmpty(NormaliseTitle(nfkc, dramas[0].title));
    assert FmTitleMatch(nfkc, title, dramas[0].title);
  }

  /** The record retrieveSeriesDataFM would cache and return on a match; `None` when it falls back to the sentinel. */
  function FmFresh(nfkc: string -> string, title: string, web: Web, now: int): Option<Record>
  {
    match FmLookup(nfkc, title, web.fmSearch(FmSearchDramasEndpoint(title)))
    case None => None
    case Some(d) => Some(Record(d.rating, d.link, now))
  }

  // ---------------------------------------------------------------------------
  // MyDramaList
  // ---------------------------------------------------------------------------

  predicate IsDramaType(dramaType: string) {
    dramaType in MDL_DRAMA_TYPES
  }

  /** The first index from `from` on, inside the scan window, whose type is allow-listed. */
  function MdlFirstMatch(dramas: seq<MdlDrama>, from: nat): (k: Option<nat>)
    ensures k.Some? ==> from <= k.value < |dramas| && k.value < SCAN_WINDOW
    ensures k.Some? ==> IsDramaType(dramas[k.value].dramaType)
    ensures k.Some? ==> forall j :: from <= j < k.value ==> !IsDramaType(dramas[j].dramaType)
    ensures k.None? ==> forall j :: from <= j < |dramas| && j < SCAN_WINDOW ==> !IsDramaType(dramas[j].dramaType)
    decreases |dramas| - from
  {
    if from >= |dramas| || from >= SCAN_WINDOW then None
    else if IsDramaType(dramas[from].dramaType) then Some(from)
    else MdlFirstMatch(dramas, from + 1)
  }

  /** The slug whose details are fetched, or `None` when the search fails or nothing qualifies. */
  function MdlSlug(response: MdlSearchResponse): Option<string>
  {
    match response
    case MdlError => None
    case MdlOk(dramas) =>
      if |dramas| == 0 then None
      else
        match MdlFirstMatch(dramas, 0)
        case None => None
        case Some(i) => Some(dramas[i].slug)
  }

  /**
   * The MyDramaList search yields a slug exactly when one of the first three
   * results has an allow-listed type, and then it is the first such result's.
   */
  lemma MdlSlugSpec(response: MdlSearchResponse)
    ensures var slug := MdlSlug(response);
      slug.Some? <==> response.MdlOk? && exists i :: 0 <= i < |response.dramas| && i < SCAN_WINDOW && IsDramaType(response.dramas[i].dramaType)
    ensures var slug := MdlSlug(response);
      slug.Some? ==> exists i :: (0 <= i < |response.dramas| && i < SCAN_WINDOW && slug.value == response.dramas[i].slug
        && IsDramaType(response.dramas[i].dramaType)
        && forall j :: 0 <= j < i ==> !IsDramaType(response.dramas[j].dramaType))
  {
  }

  /**
   * The record retrieveSeriesDataMDL would cache and return: the search is
   * sent the normalised title, the detail request the chosen slug; `None`
   * when any step fails.
   */
  function MdlFresh(nfkc: string -> string, title: string, web: Web, now: int): Option<Record>
  {
    match MdlSlug(web.mdlSearch(MdlSearchDramasEndpoint(NormaliseTitle(nfkc, title))))
    case None => None
    case Some(slug) =>
      match web.mdlInfo(MdlGetDramaInfoEndpoint(slug))
      case InfoError => None
      case InfoOk(rating, link) => Some(Record(rating, link, now))
  }

  // ---------------------------------------------------------------------------
  // Cache-first settling of one provider
  // ---------------------------------------------------------------------------

  /** The cache holds an entry under `key` that has not expired at `now`. */
  predicate IsFresh(cache: map<string, Record>, key: string, now: int) {
    key in cache && !IsTimestampExpired(cache[key].timestamp, now)
  }

  /** The provider's data and the cache after it is settled. */
  datatype Settled = Settled(data: Record, cache: map<string, Record>)

  /**
   * One provider in runScript: a fresh cache entry is used as it is;
   * otherwise the lookup's record, written to the cache only when the lookup
   * succeeded (`lookup` is `Some`), else the sentinel `fallback`.
   */
  function Settle(cache: map<string, Record>, key: string, now: int, lookup: Option<Record>, fallback: Record): Settled
  {
    if IsFresh(cache, key, now) then Settled(cache[key], cache)
    else
      match lookup
      case Some(r) => Settled(r, cache[key := r])
      case None => Settled(fallback, cache)
  }

  /** Settling one provider touches no cache entry but its own. */
  lemma SettleFrame(cache: map<string, Record>, key: string, now: int, lookup: Option<Record>, fallback: Record)
    ensures var s := Settle(cache, key, now, lookup, fallback);
      forall k :: k != key ==> (k in s.cache <==> k in cache)
    ensures var s := Settle(cache, key, now, lookup, fallback);
      forall k :: k != key && k in cache ==> s.cache[k] == cache[k]
  {
  }

  /** A failed lookup leaves the cache as it was. */
  lemma FailureNotCached(cache: map<string, Record>, key: string, now: int, fallback: Record)
    ensures Settle(cache, key, now, None, fallback).cache == cache
  {
  }

  /** A fresh entry is served without looking at the lookup at all. */
  lemma SettleCacheFirst(cache: map<string, Record>, key: string, now: int, a: Option<Record>, b: Option<Record>, fa: Record, fb: Record)
    requires IsFresh(cache, key, now)
    ensures Settle(cache, key, now, a, fa) == Settle(cache, key, now, b, fb) == Settled(cache[key], cache)
  {
  }

  /**
   * Cache round trip: a record fetched at `now` and settled again no more
   * than seven days later comes back from the cache; later than that it is
   * fetched again.
   */
  lemma SettleRoundTrip(cache: map<string, Record>, key: string, now: int, r: Record, fallback: Record,
                        later: int, again: Option<Record>, fallback2: Record)
    requires !IsFresh(cache, key, now) && r.timestamp == now && now <= later
    ensures var first := Settle(cache, key, now, Some(r), fallback);
      var second := Settle(first.cache, key, later, again, fallback2);
      && first.data == r
      && (later <= now + WEEK_MS ==> second == Settled(r, first.cache))
      && (later > now + WEEK_MS ==> second.data == again.GetOr(fallback2))
  {
    var first := Settle(cache, key, now, Some(r), fallback);
    assert first.cache[key] == r;
  }
}
