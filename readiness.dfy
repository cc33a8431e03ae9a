/**
 * The page as the userscript sees it through `document.querySelector`, and
 * the readiness rule of waitForTitle. The MutationObserver is modelled by a
 * sequence of snapshots: index 0 is the document when the watcher starts,
 * every later one the document at a mutation notification.
 */
module Readiness {
  import opened Wrappers
  import opened Helpers

  /** An element: its `class` attribute (empty when absent) and its `textContent`. */
  datatype Element = Element(classAttr: string, text: string)

  /** A document: the `class` attribute of `<html>` and the elements of the body in document order. */
  datatype Dom = Dom(rootClass: Option<string>, body: seq<Element>)

  /**
   * `document.querySelector(SelectorClassStartsWith(prefix))` over
   * `elements`: the selector is taken apart here, so the query is given the
   * class prefix it was built from, and it returns the first element in
   * document order whose class attribute starts with `prefix`.
   */
  function QueryClassStartsWith(elements: seq<Element>, prefix: string): Option<Element> {
    if elements == [] then None
    else if StartsWith(elements[0].classAttr, prefix) then Some(elements[0])
    else QueryClassStartsWith(elements[1..], prefix)
  }

  /** The query finds nothing exactly when no class matches, and otherwise the first match. */
  lemma {:induction false} QueryFindsFirst(elements: seq<Element>, prefix: string)
    ensures var e := QueryClassStartsWith(elements, prefix);
      e.None? <==> forall i :: 0 <= i < |elements| ==> !StartsWith(elements[i].classAttr, prefix)
    ensures var e := QueryClassStartsWith(elements, prefix);
      e.Some? ==> exists i :: (0 <= i < |elements| && e.value == elements[i]
        && StartsWith(elements[i].classAttr, prefix)
        && forall j :: 0 <= j < i ==> !StartsWith(elements[j].classAttr, prefix))
  {
    if elements != [] && !StartsWith(elements[0].classAttr, prefix) {
      QueryFindsFirst(elements[1..], prefix);
      assert forall i :: 1 <= i < |elements| ==> elements[i] == elements[1..][i - 1];
      var e := QueryClassStartsWith(elements, prefix);
      if e.Some? {
        var i :| 0 <= i < |elements[1..]| && e.value == elements[1..][i]
          && StartsWith(elements[1..][i].classAttr, prefix)
          && forall j :: 0 <= j < i ==> !StartsWith(elements[1..][j].classAttr, prefix);
        assert 0 <= i + 1 < |elements| && e.value == elements[i + 1]
          && StartsWith(elements[i + 1].classAttr, prefix)
          && forall j :: 0 <= j < i + 1 ==> !StartsWith(elements[j].classAttr, prefix);
      }
    }
  }

  function TitleElement(dom: Dom): Option<Element> {
    QueryClassStartsWith(dom.body, SERIES_TITLE_CLASS)
  }

  function ContentElement(dom: Dom): Option<Element> {
    QueryClassStartsWith(dom.body, SERIES_CONTENT_CLASS)
  }

  /**
   * isTitleReady: both elements exist and the title text differs from the
   * last title seen (`None` is `undefined`, which differs from every text).
   */
  predicate IsTitleReady(dom: Dom, previousTitle: Option<string>) {
    && TitleElement(dom).Some?
    && ContentElement(dom).Some?
    && Some(TitleElement(dom).value.text) != previousTitle
  }

  /** The first snapshot from `from` on at which the watcher resolves. */
  function FirstReady(snapshots: seq<Dom>, previousTitle: Option<string>, from: nat): (k: Option<nat>)
    ensures k.Some? ==> from <= k.value < |snapshots| && IsTitleReady(snapshots[k.value], previousTitle)
    ensures k.Some? ==> forall j :: from <= j < k.value ==> !IsTitleReady(snapshots[j], previousTitle)
    ensures k.None? ==> forall j :: from <= j < |snapshots| ==> !IsTitleReady(snapshots[j], previousTitle)
    decreases |snapshots| - from
  {
    if from >= |snapshots| then None
    else if IsTitleReady(snapshots[from], previousTitle) then Some(from)
    else FirstReady(snapshots, previousTitle, from + 1)
  }

  /** The title the watcher resolves with, if it resolves. */
  function ReadyTitle(snapshots: seq<Dom>, previousTitle: Option<string>): (title: Option<string>)
    ensures title.Some? ==> title != previousTitle
    ensures title.Some? <==> exists j :: 0 <= j < |snapshots| && IsTitleReady(snapshots[j], previousTitle)
  {
    match FirstReady(snapshots, previousTitle, 0)
    case None => None
    case Some(k) => Some(TitleElement(snapshots[k]).value.text)
  }

  /**
   * After resolving, the watcher has disconnected: whatever the page does
   * afterwards does not change where, or with which title, it resolved.
   */
  lemma FirstReadyIgnoresLaterSnapshots(snapshots: seq<Dom>, later: seq<Dom>, previousTitle: Option<string>)
    requires FirstReady(snapshots, previousTitle, 0).Some?
    ensures FirstReady(snapshots + later, previousTitle, 0) == FirstReady(snapshots, previousTitle, 0)
  {
    var k := FirstReady(snapshots, previousTitle, 0).value;
    var whole := snapshots + later;
    var r := FirstReady(whole, previousTitle, 0);
    assert r.Some? && r.value <= k by {
      assert whole[k] == snapshots[k];
    }
    assert r.value >= k by {
      assert whole[r.value] == snapshots[r.value];
    }
  }

  /** A page that already shows a new title and the content element resolves at once. */
  lemma ReadyImmediately(snapshots: seq<Dom>, previousTitle: Option<string>)
    requires |snapshots| > 0 && IsTitleReady(snapshots[0], previousTitle)
    ensures FirstReady(snapshots, previousTitle, 0) == Some(0)
  {
  }

  /**
   * A page whose title text stays equal to the last title seen never
   * resolves the watcher, however often it mutates.
   */
  lemma SameTitleNeverResolves(snapshots: seq<Dom>, title: string)
    requires forall j :: 0 <= j < |snapshots| ==> TitleElement(snapshots[j]) == None || TitleElement(snapshots[j]).value.text == title
    ensures ReadyTitle(snapshots, Some(title)) == None
  {
  }
}
