/**
 * The userscript's session: the module globals `seriesID`, `previousTitle`,
 * `seriesData` and `seriesElements` together with the GM key/value store,
 * the pipeline run on a series page (runScript) and the router
 * (matchScript). `State`, `Run` and `Match` say on values what the
 * methods of `TverPlus` do in place.
 */
module Session {
  import opened Wrappers
  import opened Helpers
  import opened Providers
  import opened Readiness
  import opened Badges

  /** The browser built-ins the model leaves uninterpreted. */
  datatype Builtins = Builtins(
    nfkc: string -> string,           // Unicode NFKC normalisation
    formatRating: string -> string)   // the rating parsed as a number, one decimal

  /** The module globals and the GM store (values stored as records: JSON is the identity here). */
  datatype State = State(
    seriesID: Option<string>,
    previousTitle: Option<string>,
    seriesData: map<Provider, Record>,       // a missing provider is the empty object `{}`
    seriesElements: map<Provider, Badge>,    // likewise
    cache: map<string, Record>)

  /**
   * initSeriesElements: a provider's elements are built only when its entry
   * is empty (the colour mode is read then), and every call resets them.
   */
  function InitElements(elements: map<Provider, Badge>, rootClass: Option<string>): (r: map<Provider, Badge>)
    ensures forall p: Provider :: p in r && r[p].spinner && r[p].text == "" && r[p].href.None? && r[p].target.None? && r[p].rel.None?
    ensures forall p: Provider :: p in elements ==> r[p].lightMode == elements[p].lightMode
    ensures forall p: Provider :: p !in elements ==> (r[p].lightMode <==> rootClass == Some("light"))
  {
    AllProvidersListed();
    map p: Provider | p in PROVIDERS :: Reset(if p in elements then elements[p] else Created(rootClass))
  }

  /** Every provider has elements with the spinner in place and data to show. */
  predicate ReadyToRender(elements: map<Provider, Badge>, data: map<Provider, Record>) {
    forall p: Provider :: p in elements && elements[p].spinner && p in data
  }

  /** includeSeriesData: each provider's badge rendered from its data. */
  function RenderElements(elements: map<Provider, Badge>, data: map<Provider, Record>, formatRating: string -> string): (r: map<Provider, Badge>)
    requires ReadyToRender(elements, data)
    ensures forall p: Provider :: p in r && !r[p].spinner && r[p].text == Label(data[p], p, formatRating)
  {
    AllProvidersListed();
    map p: Provider | p in PROVIDERS :: Render(elements[p], data[p], p, formatRating)
  }

  /** One provider of runScript: from the cache if fresh, else from the lookup. */
  function SettleFM(cache: map<string, Record>, seriesID: Option<string>, title: string, web: Web, now: int, b: Builtins): Settled {
    Settle(cache, CacheKey(seriesID, FM), now, FmFresh(b.nfkc, title, web, now), SentinelRecord(FM, now))
  }

  function SettleMDL(cache: map<string, Record>, seriesID: Option<string>, title: string, web: Web, now: int, b: Builtins): Settled {
    Settle(cache, CacheKey(seriesID, MDL), now, MdlFresh(b.nfkc, title, web, now), SentinelRecord(MDL, now))
  }

  /**
   * runScript, with the page given as its snapshots: when the title becomes
   * ready the elements are initialised, Filmarks is settled, then
   * MyDramaList (seeing the cache as Filmarks left it), then both badges
   * are rendered. A page that never becomes ready leaves everything as it was.
   */
  function Run(s: State, page: seq<Dom>, web: Web, now: int, b: Builtins): State {
    match FirstReady(page, s.previousTitle, 0)
    case None => s
    case Some(k) =>
      var title := TitleElement(page[k]).value.text;
      Populate(s.(previousTitle := Some(title)), title, page[k].rootClass, web, now, b)
  }

  /** The part of runScript after the title is ready. */
  function Populate(s: State, title: string, rootClass: Option<string>, web: Web, now: int, b: Builtins): State {
    var elements := InitElements(s.seriesElements, rootClass);
    var fm := SettleFM(s.cache, s.seriesID, title, web, now, b);
    var mdl := SettleMDL(fm.cache, s.seriesID, title, web, now, b);
    var data := s.seriesData[FM := fm.data][MDL := mdl.data];
    s.(seriesData := data, seriesElements := RenderElements(elements, data, b.formatRating), cache := mdl.cache)
  }

  /**
   * What a run promises: the series ID is kept; a page that never becomes
   * ready changes nothing; otherwise the new title is remembered, both
   * badges are rendered from the provider data with the spinner gone, and no
   * cache entry but the two of this series changes.
   */
  lemma RunEffect(s: State, page: seq<Dom>, web: Web, now: int, b: Builtins)
    ensures var t := Run(s, page, web, now, b);
      && t.seriesID == s.seriesID
      && (ReadyTitle(page, s.previousTitle).None? ==> t == s)
      && (ReadyTitle(page, s.previousTitle).Some? ==>
        && t.previousTitle == ReadyTitle(page, s.previousTitle)
        && (forall p: Provider :: p in t.seriesElements && p in t.seriesData && !t.seriesElements[p].spinner
              && t.seriesElements[p].text == Label(t.seriesData[p], p, b.formatRating))
        && (forall k :: k != CacheKey(s.seriesID, FM) && k != CacheKey(s.seriesID, MDL) ==>
              (k in t.cache <==> k in s.cache) && (k in s.cache ==> t.cache[k] == s.cache[k])))
  {
    AllProvidersListed();
  }

  /** The state after matchScript, and whether it threw. */
  datatype Outcome = Outcome(state: State, threw: bool)

  /**
   * matchScript. A series URL takes its ID from `href` (location.href, not
   * the `url` argument) and runs the pipeline; no ID makes `null[0]` throw
   * before anything changes. Any other URL empties the data, the elements
   * and the last title, and keeps the series ID.
   */
  function Match(s: State, url: string, href: string, page: seq<Dom>, web: Web, now: int, b: Builtins): Outcome {
    if StartsWith(url, TVER_SERIES_URL) then
      match RetrieveSeriesIDFromSeriesURL(href)
      case None => Outcome(s, true)
      case Some(id) => Outcome(Run(s.(seriesID := Some(id)), page, web, now, b), false)
    else
      Outcome(s.(seriesData := map[], seriesElements := map[], previousTitle := None), false)
  }

  /** Leaving the series pages forgets the page state but not the series ID or the cache. */
  lemma MatchAwayResets(s: State, url: string, href: string, page: seq<Dom>, web: Web, now: int, b: Builtins)
    requires !StartsWith(url, TVER_SERIES_URL)
    ensures var o := Match(s, url, href, page, web, now, b);
      && !o.threw
      && o.state.seriesData == map[] && o.state.seriesElements == map[] && o.state.previousTitle == None
      && o.state.seriesID == s.seriesID && o.state.cache == s.cache
  {
  }

  /** A series URL without an ID throws and changes nothing, not even the series ID. */
  lemma MatchWithoutIDThrows(s: State, url: string, href: string, page: seq<Dom>, web: Web, now: int, b: Builtins)
    requires StartsWith(url, TVER_SERIES_URL) && RetrieveSeriesIDFromSeriesURL(href).None?
    ensures Match(s, url, href, page, web, now, b) == Outcome(s, true)
  {
  }

  /**
   * When both providers have fresh cache entries, the run's result does not
   * depend on what the network would answer: no lookup is consulted.
   */
  lemma RunCacheFirst(s: State, page: seq<Dom>, web1: Web, web2: Web, now: int, b: Builtins)
    requires IsFresh(s.cache, CacheKey(s.seriesID, FM), now) && IsFresh(s.cache, CacheKey(s.seriesID, MDL), now)
    ensures Run(s, page, web1, now, b) == Run(s, page, web2, now, b)
  {
    match FirstReady(page, s.previousTitle, 0)
    case None =>
    case Some(k) =>
      var title := TitleElement(page[k]).value.text;
      var fm1 := SettleFM(s.cache, s.seriesID, title, web1, now, b);
      var fm2 := SettleFM(s.cache, s.seriesID, title, web2, now, b);
      assert fm1 == fm2 == Settled(s.cache[CacheKey(s.seriesID, FM)], s.cache);
  }

  /** A run whose lookups both fail writes nothing to the cache. */
  lemma RunFailuresNotCached(s: State, page: seq<Dom>, web: Web, now: int, b: Builtins)
    requires ReadyTitle(page, s.previousTitle).Some?
    requires var title := ReadyTitle(page, s.previousTitle).value;
      FmFresh(b.nfkc, title, web, now).None? && MdlFresh(b.nfkc, title, web, now).None?
    ensures Run(s, page, web, now, b).cache == s.cache
  {
  }

  /**
   * A populate whose two lookups succeed, on a series with neither entry
   * cached, caches both records stamped `now` and shows exactly them.
   */
  lemma PopulateCachesLookups(s: State, title: string, rootClass: Option<string>, web: Web, now: int, b: Builtins)
    requires CacheKey(s.seriesID, FM) !in s.cache && CacheKey(s.seriesID, MDL) !in s.cache
    requires FmFresh(b.nfkc, title, web, now).Some? && MdlFresh(b.nfkc, title, web, now).Some?
    ensures var t := Populate(s, title, rootClass, web, now, b);
      var kFM, kMDL := CacheKey(s.seriesID, FM), CacheKey(s.seriesID, MDL);
      && kFM in t.cache && kMDL in t.cache
      && t.cache[kFM].timestamp == now && t.cache[kMDL].timestamp == now
      && t.seriesData == map[FM := t.cache[kFM], MDL := t.cache[kMDL]]
  {
    CacheKeysDistinct(s.seriesID, s.seriesID);
    var t := Populate(s, title, rootClass, web, now, b);
    var kFM, kMDL := CacheKey(s.seriesID, FM), CacheKey(s.seriesID, MDL);
    assert t.seriesData == s.seriesData[FM := t.cache[kFM]][MDL := t.cache[kMDL]];
    OverwriteBoth(s.seriesData, t.cache[kFM], t.cache[kMDL]);
  }

  /**
   * A populate on a series whose two entries are both fresh shows the cached
   * records and leaves the cache alone.
   */
  lemma PopulateFromCache(s: State, title: string, rootClass: Option<string>, web: Web, now: int, b: Builtins)
    requires IsFresh(s.cache, CacheKey(s.seriesID, FM), now) && IsFresh(s.cache, CacheKey(s.seriesID, MDL), now)
    ensures var t := Populate(s, title, rootClass, web, now, b);
      && t.cache == s.cache
      && t.seriesData == s.seriesData[FM := s.cache[CacheKey(s.seriesID, FM)]][MDL := s.cache[CacheKey(s.seriesID, MDL)]]
  {
  }

  /** Writing both providers leaves nothing of the map written over. */
  lemma OverwriteBoth(m: map<Provider, Record>, fm: Record, mdl: Record)
    ensures m[FM := fm][MDL := mdl] == map[FM := fm, MDL := mdl]
  {
    var r := m[FM := fm][MDL := mdl];
    forall p | p in r.Keys
      ensures p in {FM, MDL}
    {
      match p
      case FM =>
      case MDL =>
    }
    assert r.Keys == {FM, MDL};
  }

  /**
   * After a populate each badge is the one a freshly created badge would
   * render from the provider's data, up to the colour mode.
   */
  lemma PopulatedBadge(s: State, title: string, rootClass: Option<string>, web: Web, now: int, b: Builtins, p: Provider)
    ensures var t := Populate(s, title, rootClass, web, now, b);
      && p in t.seriesElements && p in t.seriesData
      && t.seriesElements[p] == Render(Reset(Created(None)), t.seriesData[p], p, b.formatRating).(lightMode := t.seriesElements[p].lightMode)
  {
    AllProvidersListed();
  }

  /** On a series URL with an ID and a page that becomes ready, matchScript is a populate. */
  lemma MatchRunsPopulate(s: State, url: string, href: string, page: seq<Dom>, web: Web, now: int, b: Builtins)
    requires StartsWith(url, TVER_SERIES_URL) && RetrieveSeriesIDFromSeriesURL(href).Some?
    requires FirstReady(page, s.previousTitle, 0).Some?
    ensures var k := FirstReady(page, s.previousTitle, 0).value;
      var title := TitleElement(page[k]).value.text;
      var start := s.(seriesID := RetrieveSeriesIDFromSeriesURL(href), previousTitle := Some(title));
      Match(s, url, href, page, web, now, b) == Outcome(Populate(start, title, page[k].rootClass, web, now, b), false)
  {
  }

  /**
   * A first visit to a series with nothing cached whose two lookups succeed:
   * the ID is taken from `href`, both records are cached stamped `now`, and
   * the data shown is exactly those two records.
   */
  lemma FirstVisitCaches(s0: State, url: string, href: string, page: seq<Dom>, web: Web, now: int, b: Builtins)
    requires StartsWith(url, TVER_SERIES_URL)
    requires RetrieveSeriesIDFromSeriesURL(href).Some?
    requires var id := RetrieveSeriesIDFromSeriesURL(href);
      CacheKey(id, FM) !in s0.cache && CacheKey(id, MDL) !in s0.cache
    requires ReadyTitle(page, s0.previousTitle).Some?
    requires var title := ReadyTitle(page, s0.previousTitle).value;
      FmFresh(b.nfkc, title, web, now).Some? && MdlFresh(b.nfkc, title, web, now).Some?
    ensures var s1 := Match(s0, url, href, page, web, now, b).state;
      var kFM, kMDL := CacheKey(s1.seriesID, FM), CacheKey(s1.seriesID, MDL);
      && s1.seriesID == RetrieveSeriesIDFromSeriesURL(href)
      && kFM in s1.cache && kMDL in s1.cache
      && s1.cache[kFM].timestamp == now && s1.cache[kMDL].timestamp == now
      && s1.seriesData == map[FM := s1.cache[kFM], MDL := s1.cache[kMDL]]
      && forall p: Provider :: p in s1.seriesElements && p in s1.seriesData
           && s1.seriesElements[p] == Render(Reset(Created(None)), s1.seriesData[p], p, b.formatRating).(lightMode := s1.seriesElements[p].lightMode)
  {
    var id := RetrieveSeriesIDFromSeriesURL(href);
    var k := FirstReady(page, s0.previousTitle, 0).value;
    var title := TitleElement(page[k]).value.text;
    var start := s0.(seriesID := id, previousTitle := Some(title));
    var s1 := Populate(start, title, page[k].rootClass, web, now, b);
    MatchRunsPopulate(s0, url, href, page, web, now, b);
    PopulateCachesLookups(start, title, page[k].rootClass, web, now, b);
    forall p: Provider
      ensures p in s1.seriesElements && p in s1.seriesData
           && s1.seriesElements[p] == Render(Reset(Created(None)), s1.seriesData[p], p, b.formatRating).(lightMode := s1.seriesElements[p].lightMode)
    {
      PopulatedBadge(start, title, page[k].rootClass, web, now, b, p);
    }
  }

  /**
   * Returning to a series after leaving it, while both of its entries are
   * fresh: the data shown is the cached pair and the cache is unchanged.
   */
  lemma ReturnUsesCache(s1: State, url: string, href: string, away: string, page2: seq<Dom>, web2: Web, later: int, b: Builtins)
    requires StartsWith(url, TVER_SERIES_URL) && !StartsWith(away, TVER_SERIES_URL)
    requires RetrieveSeriesIDFromSeriesURL(href).Some? && s1.seriesID == RetrieveSeriesIDFromSeriesURL(href)
    requires IsFresh(s1.cache, CacheKey(s1.seriesID, FM), later) && IsFresh(s1.cache, CacheKey(s1.seriesID, MDL), later)
    requires ReadyTitle(page2, None).Some?
    ensures var s2 := Match(s1, away, away, page2, web2, later, b).state;
      var s3 := Match(s2, url, href, page2, web2, later, b).state;
      var kFM, kMDL := CacheKey(s1.seriesID, FM), CacheKey(s1.seriesID, MDL);
      && s3.cache == s1.cache
      && s3.seriesData == map[FM := s1.cache[kFM], MDL := s1.cache[kMDL]]
      && forall p: Provider :: p in s3.seriesElements && p in s3.seriesData
           && s3.seriesElements[p] == Render(Reset(Created(None)), s3.seriesData[p], p, b.formatRating).(lightMode := s3.seriesElements[p].lightMode)
  {
    var s2 := s1.(seriesData := map[], seriesElements := map[], previousTitle := None);
    assert Match(s1, away, away, page2, web2, later, b).state == s2;
    var k2 := FirstReady(page2, None, 0).value;
    var title2 := TitleElement(page2[k2]).value.text;
    var again := s2.(previousTitle := Some(title2));
    assert s2.(seriesID := s1.seriesID) == s2;
    var s3 := Populate(again, title2, page2[k2].rootClass, web2, later, b);
    assert Match(s2, url, href, page2, web2, later, b).state == s3;
    PopulateFromCache(again, title2, page2[k2].rootClass, web2, later, b);
    forall p: Provider
      ensures p in s3.seriesElements && p in s3.seriesData
           && s3.seriesElements[p] == Render(Reset(Created(None)), s3.seriesData[p], p, b.formatRating).(lightMode := s3.seriesElements[p].lightMode)
    {
      PopulatedBadge(again, title2, page2[k2].rootClass, web2, later, b, p);
    }
  }

  /**
   * Coming back to a series within seven days of a first visit whose two
   * lookups succeeded reproduces that visit's data and badges from the
   * cache, whatever the network answers the second time and whatever title
   * the page then shows.
   */
  lemma RevisitWithinWeekUsesCache(
    s0: State, url: string, href: string, page: seq<Dom>, web: Web, now: int,
    away: string, page2: seq<Dom>, web2: Web, later: int, b: Builtins)
    requires StartsWith(url, TVER_SERIES_URL) && !StartsWith(away, TVER_SERIES_URL)
    requires RetrieveSeriesIDFromSeriesURL(href).Some?
    requires var id := RetrieveSeriesIDFromSeriesURL(href);
      CacheKey(id, FM) !in s0.cache && CacheKey(id, MDL) !in s0.cache
    requires ReadyTitle(page, s0.previousTitle).Some?
    requires var title := ReadyTitle(page, s0.previousTitle).value;
      FmFresh(b.nfkc, title, web, now).Some? && MdlFresh(b.nfkc, title, web, now).Some?
    requires ReadyTitle(page2, None).Some?
    requires now <= later <= now + WEEK_MS
    ensures var s1 := Match(s0, url, href, page, web, now, b).state;
      var s2 := Match(s1, away, away, page2, web2, later, b).state;
      var s3 := Match(s2, url, href, page2, web2, later, b).state;
      && s3.seriesData == s1.seriesData
      && s3.cache == s1.cache
      && forall p: Provider :: p in s1.seriesElements && p in s3.seriesElements
           && s3.seriesElements[p] == s1.seriesElements[p].(lightMode := s3.seriesElements[p].lightMode)
  {
    FirstVisitCaches(s0, url, href, page, web, now, b);
    var s1 := Match(s0, url, href, page, web, now, b).state;
    ReturnUsesCache(s1, url, href, away, page2, web2, later, b);
  }

  /** The userscript's globals and GM store, updated in place. */
  class TverPlus {
    const builtins: Builtins
    var seriesID: Option<string>
    var previousTitle: Option<string>
    var seriesData: map<Provider, Record>
    var seriesElements: map<Provider, Badge>
    var cache: map<string, Record>

    function Current(): State
      reads this
    {
      State(seriesID, previousTitle, seriesData, seriesElements, cache)
    }

    /** The script as loaded: nothing known yet, the GM store as previous page loads left it. */
    constructor (builtins: Builtins, stored: map<string, Record>)
      ensures this.builtins == builtins
      ensures Current() == State(None, None, map[], map[], stored)
    {
      this.builtins := builtins;
      seriesID, previousTitle := None, None;
      seriesData, seriesElements := map[], map[];
      cache := stored;
    }

    /**
     * waitForTitle: the initial check on `snapshots[0]`, then one check per
     * mutation until the title is ready; `None` when it never is (the
     * promise stays pending). `at` is the snapshot it resolved on.
     */
    method WaitForTitle(snapshots: seq<Dom>) returns (title: Option<string>, at: nat)
      requires |snapshots| > 0
      modifies this`previousTitle
      ensures title == ReadyTitle(snapshots, old(previousTitle))
      ensures title.Some? ==> FirstReady(snapshots, old(previousTitle), 0) == Some(at)
      ensures previousTitle == if title.Some? then title else old(previousTitle)
    {
      if IsTitleReady(snapshots[0], previousTitle) {
        previousTitle := Some(TitleElement(snapshots[0]).value.text);
        return previousTitle, 0;
      }
      var i := 1;
      while i < |snapshots|
        invariant 1 <= i <= |snapshots|
        invariant previousTitle == old(previousTitle)
        invariant FirstReady(snapshots, previousTitle, 0) == FirstReady(snapshots, previousTitle, i)
      {
        if IsTitleReady(snapshots[i], previousTitle) {
          previousTitle := Some(TitleElement(snapshots[i]).value.text);
          return previousTitle, i;   // the observer stops here
        }
        i := i + 1;
      }
      return None, 0;
    }

    /** initSeriesElements, over the providers in order. */
    method InitSeriesElements(rootClass: Option<string>)
      modifies this`seriesElements
      ensures seriesElements == InitElements(old(seriesElements), rootClass)
    {
      ghost var goal := InitElements(seriesElements, rootClass);
      for i := 0 to |PROVIDERS|
        invariant forall j :: 0 <= j < i ==> PROVIDERS[j] in seriesElements && seriesElements[PROVIDERS[j]] == goal[PROVIDERS[j]]
        invariant forall j :: i <= j < |PROVIDERS| ==>
          (PROVIDERS[j] in seriesElements <==> PROVIDERS[j] in old(seriesElements))
          && (PROVIDERS[j] in seriesElements ==> seriesElements[PROVIDERS[j]] == old(seriesElements)[PROVIDERS[j]])
        invariant seriesElements.Keys <= set p | p in PROVIDERS
      {
        var p := PROVIDERS[i];
        if p !in seriesElements {   // the provider has no badge yet
          seriesElements := seriesElements[p := Created(rootClass)];
        }
        seriesElements := seriesElements[p := Reset(seriesElements[p])];
      }
      AllProvidersListed();
    }

    /** includeSeriesData, over the providers in order. */
    method IncludeSeriesData()
      requires ReadyToRender(seriesElements, seriesData)
      modifies this`seriesElements
      ensures seriesElements == RenderElements(old(seriesElements), seriesData, builtins.formatRating)
    {
      for i := 0 to |PROVIDERS|
        invariant forall j :: 0 <= j < i ==> (PROVIDERS[j] in seriesElements
          && seriesElements[PROVIDERS[j]] == Render(old(seriesElements)[PROVIDERS[j]], seriesData[PROVIDERS[j]], PROVIDERS[j], builtins.formatRating))
        invariant forall j :: i <= j < |PROVIDERS| ==> PROVIDERS[j] in seriesElements && seriesElements[PROVIDERS[j]] == old(seriesElements)[PROVIDERS[j]]
        invariant seriesElements.Keys == old(seriesElements).Keys
      {
        IncludeProviderData(PROVIDERS[i]);
      }
      AllProvidersListed();
    }

    /** One pass of includeSeriesData's loop. */
    method IncludeProviderData(p: Provider)
      requires p in seriesElements && seriesElements[p].spinner && p in seriesData
      modifies this`seriesElements
      ensures seriesElements == old(seriesElements)[p := Render(old(seriesElements)[p], seriesData[p], p, builtins.formatRating)]
    {
      var d := seriesData[p];
      var badge := seriesElements[p].(spinner := false);   // the spinner leaves the label
      if LinkTruthy(d.link) {
        badge := badge.(href := d.link, target := Some("_blank"), rel := Some("noopener noreferrer"));
      }
      badge := badge.(text := if d.rating == Sentinel(p) then "N/A" else builtins.formatRating(d.rating));
      seriesElements := seriesElements[p := badge];
    }

    /**
     * retrieveSeriesDataFM: search with the raw title, take the first of the
     * first three candidates whose normalised title contains or is contained
     * in the normalised query; cache it under `<seriesID>-fm`. Every failure
     * returns the sentinel record and writes nothing.
     */
    method RetrieveSeriesDataFM(title: string, web: Web, now: int) returns (r: Record)
      modifies this`cache
      ensures r == FmFresh(builtins.nfkc, title, web, now).GetOr(SentinelRecord(FM, now))
      ensures cache == if FmFresh(builtins.nfkc, title, web, now).Some? then old(cache)[CacheKey(seriesID, FM) := r] else old(cache)
    {
      r := SentinelRecord(FM, now);
      var response := web.fmSearch(FmSearchDramasEndpoint(title));
      if response.FmError? {   // a non-OK status, or the request failed
        return;
      }
      var dramas := response.dramas;
      if |dramas| == 0 {
        return;
      }
      var i := 0;
      while i < |dramas|
        invariant 0 <= i <= |dramas| && i <= SCAN_WINDOW
        invariant FmFirstMatch(builtins.nfkc, title, dramas, 0) == FmFirstMatch(builtins.nfkc, title, dramas, i)
        invariant r == SentinelRecord(FM, now) && cache == old(cache)
      {
        if i == SCAN_WINDOW {
          break;
        }
        var titleSearch := NormaliseTitle(builtins.nfkc, title);
        var titleFM := NormaliseTitle(builtins.nfkc, dramas[i].title);
        if Includes(titleSearch, titleFM) || Includes(titleFM, titleSearch) {
          r := r.(rating := dramas[i].rating, link := dramas[i].link);
          cache := cache[CacheKey(seriesID, FM) := r];
          return;
        }
        i := i + 1;
      }
    }

    /**
     * retrieveSeriesDataMDL: search with the normalised title, take the slug
     * of the first of the first three candidates whose type is allow-listed,
     * fetch its details and cache them under `<seriesID>-mdl`. Every failure
     * returns the sentinel record and writes nothing.
     */
    method RetrieveSeriesDataMDL(title: string, web: Web, now: int) returns (r: Record)
      modifies this`cache
      ensures r == MdlFresh(builtins.nfkc, title, web, now).GetOr(SentinelRecord(MDL, now))
      ensures cache == if MdlFresh(builtins.nfkc, title, web, now).Some? then old(cache)[CacheKey(seriesID, MDL) := r] else old(cache)
    {
      r := SentinelRecord(MDL, now);
      var response := web.mdlSearch(MdlSearchDramasEndpoint(NormaliseTitle(builtins.nfkc, title)));
      if response.MdlError? {
        return;
      }
      var dramas := response.dramas;
      if |dramas| == 0 {
        return;
      }
      var slug: Option<string> := None;
      var i := 0;
      while i < |dramas|
        invariant 0 <= i <= |dramas| && i <= SCAN_WINDOW
        invariant MdlFirstMatch(dramas, 0) == MdlFirstMatch(dramas, i)
        invariant slug == None
      {
        if i == SCAN_WINDOW {
          break;
        }
        if dramas[i].dramaType in MDL_DRAMA_TYPES {
          slug := Some(dramas[i].slug);
          break;
        }
        i := i + 1;
      }
      assert slug == MdlSlug(response);
      if slug.None? {   // no allow-listed type among the first three
        return;
      }
      var info := web.mdlInfo(MdlGetDramaInfoEndpoint(slug.value));
      if info.InfoError? {
        return;
      }
      r := r.(rating := info.rating, link := info.link);
      cache := cache[CacheKey(seriesID, MDL) := r];
    }

    /**
     * runScript: wait for the title; then init the badges, settle Filmarks
     * from the cache or a lookup, then MyDramaList, then render both.
     */
    method RunScript(page: seq<Dom>, web: Web, now: int)
      requires |page| > 0
      modifies this
      ensures Current() == Run(old(Current()), page, web, now, builtins)
    {
      ghost var s := Current();
      var title, at := WaitForTitle(page);
      if title.None? {
        return;
      }
      PopulateSeries(title.value, page[at].rootClass, web, now);
    }

    /** runScript once the title is ready: init, settle both providers, render. */
    method PopulateSeries(title: string, rootClass: Option<string>, web: Web, now: int)
      modifies this`seriesElements, this`seriesData, this`cache
      ensures Current() == Populate(old(Current()), title, rootClass, web, now, builtins)
    {
      ghost var s := Current();
      ghost var fm := SettleFM(s.cache, s.seriesID, title, web, now, builtins);
      ghost var mdl := SettleMDL(fm.cache, s.seriesID, title, web, now, builtins);
      InitSeriesElements(rootClass);
      ghost var elements := seriesElements;
      SettleSeriesDataFM(title, web, now);
      assert cache == fm.cache;
      SettleSeriesDataMDL(title, web, now);
      assert cache == mdl.cache;
      assert ReadyToRender(seriesElements, seriesData) by {
        AllProvidersListed();
      }
      IncludeSeriesData();
    }

    /** Filmarks in runScript: a fresh cache entry is used as it is, otherwise retrieveSeriesDataFM's record. */
    method SettleSeriesDataFM(title: string, web: Web, now: int)
      modifies this`seriesData, this`cache
      ensures var fm := SettleFM(old(cache), seriesID, title, web, now, builtins);
        seriesData == old(seriesData)[FM := fm.data] && cache == fm.cache
    {
      var cachedFM := if CacheKey(seriesID, FM) in cache then Some(cache[CacheKey(seriesID, FM)]) else None;
      var dataFM: Record;
      if cachedFM.Some? && !IsTimestampExpired(cachedFM.value.timestamp, now) {
        dataFM := cachedFM.value;
      } else {
        assert !IsFresh(cache, CacheKey(seriesID, FM), now);
        dataFM := RetrieveSeriesDataFM(title, web, now);
      }
      seriesData := seriesData[FM := dataFM];
    }

    /** The same for MyDramaList, after Filmarks is settled. */
    method SettleSeriesDataMDL(title: string, web: Web, now: int)
      modifies this`seriesData, this`cache
      ensures var mdl := SettleMDL(old(cache), seriesID, title, web, now, builtins);
        seriesData == old(seriesData)[MDL := mdl.data] && cache == mdl.cache
    {
      var cachedMDL := if CacheKey(seriesID, MDL) in cache then Some(cache[CacheKey(seriesID, MDL)]) else None;
      var dataMDL: Record;
      if cachedMDL.Some? && !IsTimestampExpired(cachedMDL.value.timestamp, now) {
        dataMDL := cachedMDL.value;
      } else {
        assert !IsFresh(cache, CacheKey(seriesID, MDL), now);
        dataMDL := RetrieveSeriesDataMDL(title, web, now);
      }
      seriesData := seriesData[MDL := dataMDL];
    }

    /**
     * matchScript, with `url` the event's URL and `href` location.href.
     * `threw` reports the TypeError of a series URL without an ID.
     */
    method MatchScript(url: string, href: string, page: seq<Dom>, web: Web, now: int) returns (threw: bool)
      requires |page| > 0
      modifies this
      ensures Outcome(Current(), threw) == Match(old(Current()), url, href, page, web, now, builtins)
    {
      threw := false;
      if StartsWith(url, TVER_SERIES_URL) {
        var id := RetrieveSeriesIDFromSeriesURL(href);
        if id.None? {
          threw := true;
          return;
        }
        seriesID := id;
        RunScript(page, web, now);
      } else {
        seriesData := map[];
        seriesElements := map[];
        previousTitle := None;
      }
    }
  }
}
