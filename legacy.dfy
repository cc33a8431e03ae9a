/**
 * The earlier, title-only script: its own waitForTitle (the title element
 * alone, with no content element and no comparison with a previous title)
 * and a router that skips a series page whose location.href it has just
 * handled. runScript there only logs the title, so a run is modelled by
 * what it appends to the console log.
 */
module Legacy {
  import opened Wrappers
  import opened Helpers
  import opened Readiness

  /** The first snapshot from `from` on in which the title element exists. */
  function FirstTitle(snapshots: seq<Dom>, from: nat): (k: Option<nat>)
    ensures k.Some? ==> from <= k.value < |snapshots| && TitleElement(snapshots[k.value]).Some?
    ensures k.Some? ==> forall j :: from <= j < k.value ==> TitleElement(snapshots[j]).None?
    ensures k.None? ==> forall j :: from <= j < |snapshots| ==> TitleElement(snapshots[j]).None?
    decreases |snapshots| - from
  {
    if from >= |snapshots| then None
    else if TitleElement(snapshots[from]).Some? then Some(from)
    else FirstTitle(snapshots, from + 1)
  }

  /** The text the title promise resolves with, or `None` while it stays pending. */
  function TitleText(snapshots: seq<Dom>): Option<string> {
    match FirstTitle(snapshots, 0)
    case None => None
    case Some(k) => Some(TitleElement(snapshots[k]).value.text)
  }

  /**
   * waitForTitle: the initial query on `snapshots[0]`, then one query per
   * mutation; the observer disconnects on the first hit.
   */
  method WaitForTitle(snapshots: seq<Dom>) returns (title: Option<string>)
    requires |snapshots| > 0
    ensures title == TitleText(snapshots)
    ensures title.Some? <==> exists j :: 0 <= j < |snapshots| && TitleElement(snapshots[j]).Some?
  {
    var titleElement := TitleElement(snapshots[0]);
    if titleElement.Some? {
      return Some(titleElement.value.text);
    }
    var i := 1;
    while i < |snapshots|
      invariant 1 <= i <= |snapshots|
      invariant FirstTitle(snapshots, 0) == FirstTitle(snapshots, i)
    {
      titleElement := TitleElement(snapshots[i]);
      if titleElement.Some? {
        return Some(titleElement.value.text);   // the observer stops here
      }
      i := i + 1;
    }
    return None;
  }

  /**
   * The older readiness test is weaker than the userscript's: wherever the
   * userscript's title is ready, so is the older one's, and it resolves no
   * later.
   */
  lemma {:induction false} LegacyResolvesNoLater(snapshots: seq<Dom>, previousTitle: Option<string>, from: nat)
    requires FirstReady(snapshots, previousTitle, from).Some?
    ensures FirstTitle(snapshots, from).Some?
    ensures FirstTitle(snapshots, from).value <= FirstReady(snapshots, previousTitle, from).value
    decreases |snapshots| - from
  {
    if TitleElement(snapshots[from]).None? {
      assert !IsTitleReady(snapshots[from], previousTitle);
      LegacyResolvesNoLater(snapshots, previousTitle, from + 1);
    }
  }

  /**
   * A page showing the same title as before, even without the content
   * element, still resolves the older script, which the userscript would not.
   */
  lemma ResolvesOnRepeatedTitle(dom: Dom)
    requires TitleElement(dom).Some?
    ensures TitleText([dom]) == Some(TitleElement(dom).value.text)
    ensures ReadyTitle([dom], Some(TitleElement(dom).value.text)) == None
  {
  }

  /** The router's global and the console output of the runs so far. */
  datatype Router = Router(previousUrl: Option<string>, runs: nat, log: seq<string>)

  /** JavaScript truthiness of the remembered URL: `undefined` and the empty string are both falsy. */
  predicate Truthy(s: Option<string>) {
    s.Some? && s.value != ""
  }

  /**
   * matchScript on values: a series URL whose href equals a truthy
   * `previousUrl` does nothing; any other series URL remembers the href and
   * runs (logging the title once the page shows one); every other URL
   * forgets the href.
   */
  function Step(r: Router, url: string, href: string, page: seq<Dom>): Router {
    if StartsWith(url, TVER_SERIES_URL) then
      if Truthy(r.previousUrl) && r.previousUrl.value == href then r
      else
        var logged := match TitleText(page) case None => [] case Some(t) => [t];
        Router(Some(href), r.runs + 1, r.log + logged)
    else
      r.(previousUrl := None)
  }

  /**
   * A series step skips (nothing changes) exactly when the remembered URL is
   * truthy and equals the href; otherwise it runs once, remembers the href and
   * logs the resolved title, if any.
   */
  lemma StepRunsAtMostOnce(r: Router, url: string, href: string, page: seq<Dom>)
    requires StartsWith(url, TVER_SERIES_URL)
    ensures Step(r, url, href, page) == r <==> Truthy(r.previousUrl) && r.previousUrl.value == href
    ensures var t := Step(r, url, href, page);
      (t == r && Truthy(r.previousUrl) && r.previousUrl == Some(href))
      || (t.runs == r.runs + 1 && t.previousUrl == Some(href)
          && t.log == r.log + match TitleText(page) case None => [] case Some(x) => [x])
  {
  }

  /**
   * Two URL-change events for the same non-empty href run the pipeline once,
   * whatever the URL reported by the second event, as long as it is a
   * series URL: the check is keyed on location.href.
   */
  lemma SameHrefRunsOnce(r: Router, url1: string, url2: string, href: string, page1: seq<Dom>, page2: seq<Dom>)
    requires StartsWith(url1, TVER_SERIES_URL) && StartsWith(url2, TVER_SERIES_URL) && href != ""
    ensures var once := Step(r, url1, href, page1);
      Step(once, url2, href, page2) == once
  {
  }

  /** Leaving the series pages and coming back to the same href runs again. */
  lemma ReturnRunsAgain(r: Router, url: string, away: string, href: string, page1: seq<Dom>, page2: seq<Dom>, page3: seq<Dom>)
    requires StartsWith(url, TVER_SERIES_URL) && !StartsWith(away, TVER_SERIES_URL)
    ensures var r1 := Step(r, url, href, page1);
      var r2 := Step(r1, away, away, page2);
      var r3 := Step(r2, url, href, page3);
      r2.previousUrl == None && r3.runs == r1.runs + 1 && r3.previousUrl == Some(href)
  {
  }

  /** The router as the script keeps it: a module-level `previousUrl` and the console. */
  class Script {
    var previousUrl: Option<string>
    var runs: nat
    var log: seq<string>

    function Current(): Router
      reads this
    {
      Router(previousUrl, runs, log)
    }

    /** Loading the script: `previousUrl` is undefined and nothing has run. */
    constructor ()
      ensures Current() == Router(None, 0, [])
    {
      previousUrl, runs, log := None, 0, [];
    }

    /** runScript: wait for the title and log it. */
    method RunScript(page: seq<Dom>)
      requires |page| > 0
      modifies this`runs, this`log
      ensures runs == old(runs) + 1
      ensures log == old(log) + match TitleText(page) case None => [] case Some(t) => [t]
    {
      var title := WaitForTitle(page);
      runs := runs + 1;
      if title.Some? {
        log := log + [title.value];   // the title goes to the console
      }
    }

    /**
     * matchScript, with `url` the event's URL and `href` location.href; the
     * first call, at load, passes `href` for both.
     */
    method MatchScript(url: string, href: string, page: seq<Dom>)
      requires |page| > 0
      modifies this
      ensures Current() == Step(old(Current()), url, href, page)
    {
      if StartsWith(url, TVER_SERIES_URL) {
        if previousUrl.Some? && previousUrl.value != "" && previousUrl.value == href {
          return;
        }
        previousUrl := Some(href);
        RunScript(page);
      } else {
        previousUrl := None;
      }
    }
  }
}
