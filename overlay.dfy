/**
 * The tooltip overlay (appendTooltips, scripts/main.js:148-170) over an
 * abstract chart container. The container's markers are a map from the
 * annotation index k to the marker element that the selector
 * `.annotation-k` finds; a missing key is a marker the engine did not render.
 */
module Overlay {
  import opened Optional
  import opened Overflow
  import opened AnnotationBuilder

  const TooltipClass: string := "tooltip"

  /** A tooltip node: the annotation's date (shown in long localized form), its text, its classes. */
  datatype Tooltip = Tooltip(date: string, text: string, classes: set<string>)

  /**
   * A marker element: its own classes and inline z-index (the hover state),
   * whether it still carries its native `title` attribute, and the `.tooltip`
   * nodes inside it, in document order.
   */
  datatype Marker = Marker(classes: set<string>, zIndex: Option<string>, hasTitle: bool, tooltips: seq<Tooltip>)

  type Markers = map<nat, Marker>

  /** createTooltip (scripts/main.js:132-146): a fresh node with the single class `tooltip`. */
  function CreateTooltip(date: string, text: string): Tooltip {
    Tooltip(date, text, {TooltipClass})
  }

  /** The tooltip pass i builds for descriptor d, after its overflow check against rect. */
  function MeasuredTooltip(d: Descriptor, rect: Rect, innerWidth: int): Tooltip {
    var t := CreateTooltip(d.x, d.text);
    t.(classes := AddOverflowClass(t.classes, rect, innerWidth))
  }

  /** The marker after `appendChild(tooltip)` and `removeAttribute('title')`. */
  function Attach(m: Marker, t: Tooltip): Marker {
    m.(hasTitle := false, tooltips := m.tooltips + [t])
  }

  /**
   * One iteration of the forEach for descriptor i: the marker keyed i + 1,
   * if present and without a tooltip, gains the freshly built one. The
   * overflow class goes on that fresh node, so it reaches the container only
   * on the pass that appends it.
   */
  function AttachStep(markers: Markers, i: nat, d: Descriptor, rect: Rect, innerWidth: int): Markers {
    var key := i + 1;
    if key in markers && markers[key].tooltips == [] then
      markers[key := Attach(markers[key], MeasuredTooltip(d, rect, innerWidth))]
    else markers
  }

  /** The container after the first n iterations; rectOf(i) is what the i-th fresh tooltip measures. */
  function AppendPrefix(markers: Markers, ds: seq<Descriptor>, rectOf: nat -> Rect, innerWidth: int, n: nat): Markers
    requires n <= |ds|
  {
    if n == 0 then markers
    else AttachStep(AppendPrefix(markers, ds, rectOf, innerWidth, n - 1), n - 1, ds[n - 1], rectOf(n - 1), innerWidth)
  }

  /** The container after a whole appendTooltips pass over ds. */
  function AppendAll(markers: Markers, ds: seq<Descriptor>, rectOf: nat -> Rect, innerWidth: int): Markers {
    AppendPrefix(markers, ds, rectOf, innerWidth, |ds|)
  }

  /** What one pass does to the marker keyed k, given what k held before the pass. */
  function PassEffect(m: Marker, k: nat, ds: seq<Descriptor>, rectOf: nat -> Rect, innerWidth: int): Marker {
    if 1 <= k <= |ds| && m.tooltips == [] then Attach(m, MeasuredTooltip(ds[k - 1], rectOf(k - 1), innerWidth))
    else m
  }

  lemma {:induction false} AppendPrefixEffect(markers: Markers, ds: seq<Descriptor>, rectOf: nat -> Rect, innerWidth: int, n: nat, k: nat)
    requires n <= |ds|
    ensures AppendPrefix(markers, ds, rectOf, innerWidth, n).Keys == markers.Keys
    ensures k in markers ==>
      AppendPrefix(markers, ds, rectOf, innerWidth, n)[k]
      == (if 1 <= k <= n && markers[k].tooltips == [] then Attach(markers[k], MeasuredTooltip(ds[k - 1], rectOf(k - 1), innerWidth))
          else markers[k])
  {
    if n > 0 {
      AppendPrefixEffect(markers, ds, rectOf, innerWidth, n - 1, k);
      AppendPrefixEffect(markers, ds, rectOf, innerWidth, n - 1, n);
    }
  }

  /**
   * A pass keeps the set of markers, leaves every marker whose index is not
   * 1..|ds| alone, leaves a marker that already holds a tooltip alone, and
   * gives a marker without one exactly one tooltip and no title, keeping its
   * classes and z-index.
   */
  lemma AppendTooltipsEffect(markers: Markers, ds: seq<Descriptor>, rectOf: nat -> Rect, innerWidth: int, k: nat)
    ensures AppendAll(markers, ds, rectOf, innerWidth).Keys == markers.Keys
    ensures k in markers ==> AppendAll(markers, ds, rectOf, innerWidth)[k] == PassEffect(markers[k], k, ds, rectOf, innerWidth)
    ensures k in markers && (k == 0 || k > |ds| || markers[k].tooltips != []) ==>
      AppendAll(markers, ds, rectOf, innerWidth)[k] == markers[k]
    ensures k in markers && 1 <= k <= |ds| && markers[k].tooltips == [] ==>
      var m' := AppendAll(markers, ds, rectOf, innerWidth)[k];
      |m'.tooltips| == 1 && !m'.hasTitle && m'.classes == markers[k].classes && m'.zIndex == markers[k].zIndex
      && m'.tooltips[0].date == ds[k - 1].x && m'.tooltips[0].text == ds[k - 1].text
      && m'.tooltips[0].classes == {TooltipClass} + (match StateClass(Classify(rectOf(k - 1), innerWidth))
                                                     case None => {}
                                                     case Some(c) => {c})
  {
    AppendPrefixEffect(markers, ds, rectOf, innerWidth, |ds|, k);
  }

  /**
   * Running appendTooltips again, whatever the new measurements, changes
   * nothing: the second pass finds a tooltip in every marker the first pass
   * could reach. In particular an attached tooltip's overflow class is never
   * recomputed by a later redraw.
   */
  lemma AppendTooltipsIdempotent(markers: Markers, ds: seq<Descriptor>, rectOf: nat -> Rect, innerWidth: int,
                                 rectOf': nat -> Rect, innerWidth': int)
    ensures var once := AppendAll(markers, ds, rectOf, innerWidth);
      AppendAll(once, ds, rectOf', innerWidth') == once
  {
    var once := AppendAll(markers, ds, rectOf, innerWidth);
    var twice := AppendAll(once, ds, rectOf', innerWidth');
    AppendTooltipsEffect(markers, ds, rectOf, innerWidth, 0);
    AppendTooltipsEffect(once, ds, rectOf', innerWidth', 0);
    forall k | k in once
      ensures twice[k] == once[k]
    {
      AppendTooltipsEffect(markers, ds, rectOf, innerWidth, k);
      AppendTooltipsEffect(once, ds, rectOf', innerWidth', k);
    }
  }

  ghost predicate AtMostOneTooltip(markers: Markers) {
    forall k :: k in markers ==> |markers[k].tooltips| <= 1
  }

  /** No pass ever puts a second tooltip in a marker; every reachable marker ends with exactly one. */
  lemma AppendTooltipsKeepsOneTooltip(markers: Markers, ds: seq<Descriptor>, rectOf: nat -> Rect, innerWidth: int)
    requires AtMostOneTooltip(markers)
    ensures AppendAll(markers, ds, rectOf, innerWidth).Keys == markers.Keys
    ensures AtMostOneTooltip(AppendAll(markers, ds, rectOf, innerWidth))
    ensures forall k :: 1 <= k <= |ds| && k in markers ==> |AppendAll(markers, ds, rectOf, innerWidth)[k].tooltips| == 1
  {
    var after := AppendAll(markers, ds, rectOf, innerWidth);
    AppendTooltipsEffect(markers, ds, rectOf, innerWidth, 0);
    forall k | k in after
      ensures |after[k].tooltips| <= 1 && (1 <= k <= |ds| ==> |after[k].tooltips| == 1)
    {
      AppendTooltipsEffect(markers, ds, rectOf, innerWidth, k);
    }
  }

  ghost predicate NoTooltipOverflowsBothWays(markers: Markers) {
    forall k, j :: k in markers && 0 <= j < |markers[k].tooltips| ==>
      !(OverflowRightClass in markers[k].tooltips[j].classes && OverflowLeftClass in markers[k].tooltips[j].classes)
  }

  /** No tooltip in the container ever carries both overflow classes. */
  lemma AppendTooltipsOverflowExclusive(markers: Markers, ds: seq<Descriptor>, rectOf: nat -> Rect, innerWidth: int)
    requires NoTooltipOverflowsBothWays(markers)
    ensures NoTooltipOverflowsBothWays(AppendAll(markers, ds, rectOf, innerWidth))
  {
    var after := AppendAll(markers, ds, rectOf, innerWidth);
    AppendTooltipsEffect(markers, ds, rectOf, innerWidth, 0);
    forall k, j | k in after && 0 <= j < |after[k].tooltips|
      ensures !(OverflowRightClass in after[k].tooltips[j].classes && OverflowLeftClass in after[k].tooltips[j].classes)
    {
      AppendTooltipsEffect(markers, ds, rectOf, innerWidth, k);
    }
  }
}
