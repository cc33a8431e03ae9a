# tverplus in Dafny

tverplus is a userscript for TVer (tver.jp) series pages. When a series
page shows its title, the script adds two badges under the series content:
the Filmarks (FM) rating and the MyDramaList (MDL) rating, each linking to
the matching page. Each provider's successful result is cached in the
userscript manager's key/value store under `<seriesID>-fm` /
`<seriesID>-mdl` for seven days; failed lookups are not cached. The script also follows single-page navigation: leaving the series
pages forgets the page state, and coming back runs the pipeline again.

This project models that core and proves properties of it:

- `Helpers` (`helpers.dfy`): the selector builder, the API endpoint
  builders, the series-ID extraction (`sr[a-z0-9]{8,9}`, leftmost and
  greedy), the seven-day expiry test and the title normaliser (deletion of
  dashes, tildes, slashes, parentheses and white space, then NFKC).
- `Providers` (`providers.dfy`): the two providers, their sentinel records
  and cache keys, the Filmarks and MyDramaList candidate selection over
  the first three search results, and `Settle`, which is the
  cache-first rule used for one provider.
- `Readiness` (`readiness.dfy`): the page as a sequence of DOM snapshots,
  `querySelector` with a `[class^=…]` selector, and the readiness test of
  waitForTitle.
- `Badges` (`badges.dfy`): the state of one badge (spinner, label text,
  link attributes, colour mode) and how it is reset and rendered.
- `Session` (`session.dfy`): the module globals and the store as a `State`
  value. `Run`, `Populate` and `Match` are runScript and matchScript
  written as functions on that value. The class `TverPlus` holds the same
  globals as fields and updates them in place. Each of its methods is
  proved to produce exactly what the matching function computes.
- `Legacy` (`legacy.dfy`): the earlier script `tverplus.js`. Its
  waitForTitle checks only that the title element exists. Its router skips
  a series page whose `location.href` equals the remembered
  `previousUrl`. Its `retrieveSelectorClassStartsWith`
  (tverplus.js:24-26) is the same definition as the userscript's, so it is
  `Helpers.SelectorClassStartsWith`.

The outside world enters as parameters. `Web` holds the three HTTP
endpoints as functions from request URL to parsed response. A failed
request, a non-OK status and a malformed body all become the error variant
of that response. `Builtins` holds `String.prototype.normalize("NFKC")`
and `Number.parseFloat(r).toFixed(1)` as uninterpreted functions. The page
is the sequence of DOM snapshots seen by the initial check and by each
mutation callback. `now` is `Date.now()`, taken once per run.

Behaviour of the code that the model keeps as it is:

- A series URL with no `sr…` ID makes `retrieveSeriesIDFromSeriesURL`
  evaluate `null[0]`, which throws. matchScript then stops with nothing
  changed, not even `seriesID`; no state is reset. See
  `Session.MatchWithoutIDThrows`.
- The ID is read from `location.href`, not from the URL of the event.
- Filmarks is settled before MyDramaList, one after the other, and
  MyDramaList sees the cache as Filmarks left it. The two lookups do not
  run concurrently.
- The normaliser is not idempotent. It removes glyphs before NFKC, so a
  fullwidth hyphen-minus (U+FF0D) becomes `-` after one pass and disappears
  on the second. See `Helpers.NormaliseNotIdempotent`.
- Leaving the series pages does not clear `seriesID`.

## Model

| member | source | states |
|---|---|---|
| Helpers.SelectorClassStartsWith | tverplus.user.js:28 | the selector is exactly `[class^=`, then the class name, then `]` |
| Helpers.SelectorInjective | tverplus.user.js:28 | different class names give different selectors |
| Helpers.FmSearchDramasEndpoint | tverplus.user.js:33 | the URL is the Filmarks base plus `/search/dramas/`, followed by the query unchanged |
| Helpers.MdlSearchDramasEndpoint | tverplus.user.js:34 | the URL is the MyDramaList base plus `/search/q/`, followed by the query unchanged |
| Helpers.MdlGetDramaInfoEndpoint | tverplus.user.js:35 | the URL is the MyDramaList base plus `/id/`, followed by the slug unchanged |
| Helpers.LeftmostMatchFrom | tverplus.user.js:29 | the result is the first position at or after `from` where `sr` and eight ID characters start; `None` means no such position exists |
| Helpers.RetrieveSeriesIDFromSeriesURL | tverplus.user.js:29 | `None` (the source's `null[0]` throw) exactly when the pattern matches nowhere; otherwise the match at the leftmost position, nine ID characters when a ninth follows (greedy), else eight |
| Helpers.SeriesIDShape | tverplus.user.js:29 | an extracted ID is 10 or 11 characters long: `sr` followed by `[a-z0-9]` characters |
| Helpers.SeriesPrefixHasNoMatchStart | tverplus.user.js:23 | no match can start inside `https://tver.jp/series/`, because the path never has `s` followed by `r` |
| Helpers.SeriesIDExample | tverplus.user.js:29 | `https://tver.jp/series/sr12345678` yields `sr12345678` |
| Helpers.MalformedSeriesURLHasNoID | tverplus.user.js:29 | `https://tver.jp/series/abc` yields no ID |
| Helpers.IsTimestampExpired | tverplus.user.js:30 | a record has expired exactly when more than 604800000 ms (seven days) have passed since its timestamp |
| Helpers.ExpiryBoundary | tverplus.user.js:30 | a record is still valid at exactly seven days and has expired one millisecond later |
| Helpers.ExpiryMonotone | tverplus.user.js:30 | once a record has expired, it stays expired at every later time |
| Helpers.RemoveAll | tverplus.user.js:36 | deleting a glyph class keeps every other character with its multiplicity, removes every character of the class, and never lengthens the string |
| Helpers.RemoveAllConcat | tverplus.user.js:36 | deletion distributes over concatenation, so kept characters keep their order |
| Helpers.RemoveAllKeeps | tverplus.user.js:36 | a string with none of the glyphs is unchanged |
| Helpers.RemoveAllTwice | tverplus.user.js:36 | deleting one class and then another equals deleting their union |
| Helpers.StripGlyphs | tverplus.user.js:36 | the four replace passes plus the white-space pass delete exactly the union of dashes, tildes, slashes, parentheses and JavaScript `\s` |
| Helpers.NormaliseTitle | tverplus.user.js:36 | a normalised title is NFKC applied to the query with every stripped glyph deleted |
| Helpers.NormaliseNotIdempotent | tverplus.user.js:36 | normalising twice can differ from normalising once: U+FF0D survives deletion, NFKC turns it into `-`, and a second pass deletes that |
| Helpers.WideHyphenSurvives | tverplus.user.js:36 | no deletion class contains the fullwidth hyphen-minus U+FF0D |
| Helpers.HyphenDeleted | tverplus.user.js:36 | the ASCII hyphen-minus is a dash and is deleted |
| Helpers.NormaliseIdempotentWhen | tverplus.user.js:36 | normalising is idempotent on titles whose normal form has no stripped glyph and is a fixed point of NFKC |
| Helpers.IncludesAt | tverplus.user.js:103 | `String.prototype.includes` holds exactly when the needle occurs at some position of the haystack |
| Helpers.IncludesEmpty | tverplus.user.js:103 | every string includes the empty string |
| Helpers.IncludesShorter | tverplus.user.js:103 | a string only includes strings no longer than itself |
| Providers.AllProvidersListed | tverplus.user.js:170 | the provider list `["fm", "mdl"]` names every provider |
| Providers.CacheKeysDistinct | tverplus.user.js:238-244 | a Filmarks key never equals a MyDramaList key, whatever the series IDs |
| Providers.CacheKeyInjective | tverplus.user.js:238-244 | for one provider, different series IDs give different cache keys |
| Providers.FmFirstMatch | tverplus.user.js:97-110 | the chosen index is inside the scan window of three, its candidate matches the title (either normalised title includes the other), and no earlier candidate matches; `None` means no candidate in the window matches |
| Providers.FmLookupSpec | tverplus.user.js:87-118 | the Filmarks lookup finds a drama exactly when the search succeeded and one of the first three candidates matches; the drama is the first such candidate |
| Providers.FmFirstMatchWindow | tverplus.user.js:97-98 | candidates after the third never change the choice |
| Providers.FmLookupWindow | tverplus.user.js:97-98 | appending results after the first three leaves the Filmarks lookup unchanged |
| Providers.FmEmptyQueryTakesFirst | tverplus.user.js:100-103 | a title that normalises to the empty string matches the first candidate, whatever it is |
| Providers.MdlFirstMatch | tverplus.user.js:138-146 | the chosen index is inside the scan window, its type is allow-listed, and no earlier one is; `None` means none in the window is |
| Providers.MdlSlugSpec | tverplus.user.js:128-148 | a slug is chosen exactly when the search succeeded and one of the first three results is a Japanese Drama or Japanese TV Show; it is the first such result's slug |
| Providers.SettleFrame | tverplus.user.js:238-244 | settling one provider changes no cache entry except its own key |
| Providers.FailureNotCached | tverplus.user.js:113-118 | a failed lookup writes nothing to the cache |
| Providers.SettleCacheFirst | tverplus.user.js:238-240 | a fresh cache entry is returned as it is, and the lookup result and fallback do not matter |
| Providers.SettleRoundTrip | tverplus.user.js:238-244 | a record fetched at `now` is served from the cache at any time up to seven days later; after that it is fetched again |
| Readiness.QueryFindsFirst | tverplus.user.js:55-56 | `None` exactly when no element's class attribute starts with the prefix; otherwise the first such element in document order |
| Readiness.FirstReady | tverplus.user.js:54-71 | the resolving snapshot is the first one where the title and content elements both exist and the title differs from the previous title |
| Readiness.ReadyTitle | tverplus.user.js:49-78 | waitForTitle resolves exactly when some snapshot is ready, and the title it resolves with differs from the previous title |
| Readiness.FirstReadyIgnoresLaterSnapshots | tverplus.user.js:65-69 | once resolved, the observer is disconnected: later snapshots do not change the result |
| Readiness.ReadyImmediately | tverplus.user.js:60-63 | a page that is ready at the initial check resolves there |
| Readiness.SameTitleNeverResolves | tverplus.user.js:57 | a page that only ever shows the previous title never resolves |
| Badges.Render | tverplus.user.js:216-230 | rendering removes the spinner, keeps the colour mode, and sets the label to "N/A" for the sentinel rating, else the formatted rating |
| Badges.RenderAfterReset | tverplus.user.js:204-229 | after a reset and a render, the badge is a link (to the record's link, `_blank`, `noopener noreferrer`) exactly when the link is truthy, and shows "N/A" exactly for the sentinel rating |
| Badges.ResetForgetsRender | tverplus.user.js:204-209 | resetting erases everything a render set; only the colour mode survives |
| Session.InitElements | tverplus.user.js:169-214 | after init every provider has a badge with the spinner, an empty label and no link attributes; an existing badge keeps its colour mode, a new one is light exactly when `<html class>` is `light` |
| Session.RenderElements | tverplus.user.js:216-231 | after render every provider's badge has no spinner and shows the label for that provider's data |
| Session.RunEffect | tverplus.user.js:233-249 | a run keeps the series ID; a page that never becomes ready changes nothing; otherwise the resolved title is remembered, both badges are rendered from the data, and no cache entry except this series' two keys changes |
| Session.MatchAwayResets | tverplus.user.js:256-262 | a non-series URL clears the data, the badges and the previous title, keeps the series ID and the cache, and does not throw |
| Session.MatchWithoutIDThrows | tverplus.user.js:252-253 | a series URL whose `location.href` has no ID throws and changes nothing |
| Session.RunCacheFirst | tverplus.user.js:238-244 | when both entries of the series are fresh, the network's answers do not affect the run |
| Session.RunFailuresNotCached | tverplus.user.js:233-249 | a run whose two lookups both fail leaves the cache unchanged |
| Session.MatchRunsPopulate | tverplus.user.js:251-254 | on a series URL with an ID and a page that becomes ready, matchScript sets the ID, remembers the title, and runs the rest of the pipeline; it does not throw |
| Session.PopulateCachesLookups | tverplus.user.js:236-244 | on a series with nothing cached, two successful lookups are cached with timestamp `now` and are exactly the data shown |
| Session.PopulateFromCache | tverplus.user.js:238-244 | when both entries are fresh, the data shown is the two cached records and the cache is unchanged |
| Session.PopulatedBadge | tverplus.user.js:204-229 | after a run, each badge is what a newly created badge would render from the provider's data, apart from the colour mode |
| Session.FirstVisitCaches | tverplus.user.js:251-254 | a first visit whose lookups succeed takes the ID from `location.href`, caches both records with timestamp `now`, and shows exactly those two records |
| Session.ReturnUsesCache | tverplus.user.js:251-262 | leaving and coming back while both entries are fresh shows the cached pair and leaves the cache unchanged |
| Session.RevisitWithinWeekUsesCache | tverplus.user.js:233-263 | within seven days of a first visit whose two lookups succeeded, on a series with nothing cached yet, returning shows the same data and badges (up to colour mode) and leaves the same cache, whatever the network answers and whatever title the page now shows |
| Session.TverPlus.constructor | tverplus.user.js:38-47 | the script starts with no series ID, no previous title, empty data and badges, and the store as earlier loads left it |
| Session.TverPlus.WaitForTitle | tverplus.user.js:49-78 | the loop resolves with `ReadyTitle` on the first ready snapshot and stores the resolved title in `previousTitle`; if no snapshot is ready, `previousTitle` is unchanged |
| Session.TverPlus.InitSeriesElements | tverplus.user.js:169-214 | the loop over the providers leaves the badges equal to `InitElements` of the old badges |
| Session.TverPlus.IncludeSeriesData | tverplus.user.js:216-231 | the loop over the providers leaves the badges equal to `RenderElements` of the old badges and the data |
| Session.TverPlus.IncludeProviderData | tverplus.user.js:217-229 | one pass renders that provider's badge and changes no other badge |
| Session.TverPlus.RetrieveSeriesDataFM | tverplus.user.js:80-119 | the scan returns the Filmarks lookup's record, or the `-` sentinel; it writes `<seriesID>-fm` exactly when the lookup succeeded |
| Session.TverPlus.RetrieveSeriesDataMDL | tverplus.user.js:121-167 | the scan and the detail request return the MyDramaList record, or the `N/A` sentinel; it writes `<seriesID>-mdl` exactly when both requests succeeded |
| Session.TverPlus.RunScript | tverplus.user.js:233-249 | the new globals and store are exactly `Run` of the old ones |
| Session.TverPlus.PopulateSeries | tverplus.user.js:235-248 | after the title is ready, the new globals and store are exactly `Populate` of the old ones |
| Session.TverPlus.SettleSeriesDataFM | tverplus.user.js:238-240 | Filmarks data and cache become what `Settle` gives for the `-fm` key |
| Session.TverPlus.SettleSeriesDataMDL | tverplus.user.js:242-244 | MyDramaList data and cache become what `Settle` gives for the `-mdl` key |
| Session.TverPlus.MatchScript | tverplus.user.js:251-263 | the new state and whether it threw are exactly `Match` of the old state |
| Legacy.FirstTitle | tverplus.js:31-54 | the resolving snapshot is the first one where the title element exists |
| Legacy.WaitForTitle | tverplus.js:31-54 | the loop resolves with the first title element's text, and resolves exactly when some snapshot has a title element |
| Legacy.LegacyResolvesNoLater | tverplus.js:36-47 | wherever the userscript's stricter test resolves, the older test also resolves, at the same snapshot or earlier |
| Legacy.ResolvesOnRepeatedTitle | tverplus.js:36-47 | the older script resolves on a repeated title, where the userscript does not |
| Legacy.StepRunsAtMostOnce | tverplus.js:65-72 | on a series event, the router is left unchanged if and only if `previousUrl` is truthy and equals the href; otherwise it runs once, remembers the href and appends to the log exactly the resolved title, or nothing while the title stays pending |
| Legacy.SameHrefRunsOnce | tverplus.js:66-71 | two series events with the same non-empty href run once; the check uses `location.href`, not the event URL |
| Legacy.ReturnRunsAgain | tverplus.js:73-75 | a non-series URL forgets `previousUrl`, so returning to the same href runs again |
| Legacy.Script.constructor | tverplus.js:56 | at load `previousUrl` is undefined and nothing has run |
| Legacy.Script.RunScript | tverplus.js:58-63 | a run is counted and logs the title once the page shows one |
| Legacy.Script.MatchScript | tverplus.js:65-76 | the router's new state is exactly `Step` of the old one |

## Left out

- HTTP and JSON: `fetch`, status codes and body parsing are not modelled. Each endpoint is a function from request URL to a parsed response. Any failure is that response's error variant. A body without `dramas`, `results` or `data`, or a candidate without a title, also throws in the source (tverplus.user.js:93, 101, 134, 158) and is caught the same way. A missing `link` is a falsy link, modelled as `None`.
- Filmarks and MyDramaList records without a `rating`: the source stores `undefined` as the rating, caches that record (tverplus.user.js:106-108, 158-160) and the badge then reads "NaN" (tverplus.user.js:229). `Record.rating` is a string, so the model has no missing rating.
- MyDramaList search results without a `slug`: the source then requests `/id/undefined` (tverplus.user.js:151). `MdlDrama.slug` is a string, so the model has no missing slug.
- The store: `GM.getValue`/`GM.setValue` are a `map` from key to record. `JSON.stringify`/`JSON.parse` are taken as inverse to each other. A stored empty string, which the source treats as absent, is not distinguished from a missing key.
- Asynchrony and concurrency: the waits inside one run are sequential in the model. A run that is still pending when the next URL change starts another run is not modelled. An observer that is never disconnected is not modelled either.
- Time: `Date.now()` is one value `now` per run. The source reads the clock separately for the expiry test and for each record's timestamp.
- MutationObserver and promises: the page is the finite sequence of snapshots the checks see. A title that is never ready leaves the promise pending, which the model returns as `None`.
- DOM details: element creation, styles, favicon and spinner image URLs, and appending the badge container to the content element. A badge is its abstract state in `Badges.Badge`.
- `normalize("NFKC")` and `toFixed(1)`: uninterpreted functions in `Builtins`. Unicode tables and floating point are out of scope.
- Console output of the userscript (`console.info`, `console.error`) is not modelled. In the older script, the title logged by runScript is the only effect, so it is kept as `log`.
- Startup: the first call `matchScript({ url: location.href })` and the `urlchange` listener registration are not separate members. Startup is the constructor followed by `MatchScript(href, href, …)`. The model does not capture that a throw in that first call stops the listener from being registered.
- `Object.freeze` of the older script's constant holders has no effect to model.
- The query strings in endpoint URLs are not escaped in the source, and the model does not escape them either.
- Session.TverPlus.WaitForTitle: requires at least one snapshot, because the initial check always reads one.
- Legacy.Script.RunScript: the log holds only the title text, not the rest of what the console shows.
