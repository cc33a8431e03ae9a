/**
 * The abstract state of one provider's badge: the link wrapper's
 * attributes, the rating label and its spinner, and the colour mode fixed
 * when the elements were built. DOM nodes, styles and image URLs are not
 * modelled.
 */
module Badges {
  import opened Wrappers
  import opened Providers

  datatype Badge = Badge(
    lightMode: bool,         // the colour mode was light when the elements were built
    spinner: bool,           // the loading spinner is a child of the rating label
    text: string,            // the rating label's text
    href: Option<string>,    // the link wrapper's attributes
    target: Option<string>,
    rel: Option<string>)

  /** Freshly built elements: an empty label, no attributes, colour mode read from `<html class>`. */
  function Created(rootClass: Option<string>): Badge
  {
    Badge(rootClass == Some("light"), false, "", None, None, None)
  }

  /** The part of initSeriesElements run on every call: the label holds just the spinner, the link attributes are removed. */
  function Reset(b: Badge): Badge
  {
    b.(spinner := true, text := "", href := None, target := None, rel := None)
  }

  /** The label text: "N/A" for the provider's sentinel rating, else the rating formatted to one decimal. */
  function Label(d: Record, p: Provider, formatRating: string -> string): string {
    if d.rating == Sentinel(p) then "N/A" else formatRating(d.rating)
  }

  /**
   * includeSeriesData for one provider. The spinner must still be in the
   * label: removeChild throws otherwise.
   */
  function Render(b: Badge, d: Record, p: Provider, formatRating: string -> string): (r: Badge)
    requires b.spinner
    ensures !r.spinner && r.lightMode == b.lightMode
    ensures r.text == Label(d, p, formatRating)
  {
    var linked :=
      if LinkTruthy(d.link) then b.(href := d.link, target := Some("_blank"), rel := Some("noopener noreferrer"))
      else b;
    linked.(spinner := false, text := Label(d, p, formatRating))
  }

  /**
   * A badge reset and then rendered is a link exactly when the record has a
   * truthy link, and shows "N/A" exactly when the rating is the sentinel
   * (a formatted number is never "N/A").
   */
  lemma RenderAfterReset(b: Badge, d: Record, p: Provider, formatRating: string -> string)
    requires formatRating(d.rating) != "N/A"
    ensures var r := Render(Reset(b), d, p, formatRating);
      && !r.spinner
      && (r.href.Some? <==> LinkTruthy(d.link))
      && (r.href.Some? ==> r.href == d.link && r.target == Some("_blank") && r.rel == Some("noopener noreferrer"))
      && (r.href.None? ==> r.target.None? && r.rel.None?)
      && (r.text == "N/A" <==> d.rating == Sentinel(p))
  {
  }

  /** Every init wipes what the previous render left: only the colour mode survives. */
  lemma ResetForgetsRender(b: Badge, d: Record, p: Provider, formatRating: string -> string)
    requires b.spinner
    ensures Reset(Render(b, d, p, formatRating)) == Reset(b)
  {
  }
}
