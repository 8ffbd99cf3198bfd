/**
 * One chart container ('.traffic' or '.edits') as the draw callback sees it:
 * the rendered annotation markers, keyed by annotation index, and the
 * `.graph-x-labels` row. The DOM mutations of scripts/main.js become
 * updates of these two fields.
 */
module Container {
  import opened Optional
  import opened Overflow
  import opened AnnotationBuilder
  import opened Overlay
  import opened Hover
  import opened AxisLabels

  class ChartContainer {
    /** The marker that `<container> .annotation-k` finds, for every rendered k. */
    var markers: Markers
    /** The children of `<container> .graph-x-labels`, in document order. */
    var xLabels: seq<XLabel>

    constructor (rendered: Markers)
      ensures markers == rendered && xLabels == []
    {
      markers := rendered;
      xLabels := [];
    }

    /**
     * appendTooltips: for each descriptor, attach a fresh tooltip to its
     * marker unless the marker is absent or already has one, then classify
     * the fresh tooltip's overflow; rectOf(i) is what that tooltip measures.
     */
    method AppendTooltips(annotations: seq<Descriptor>, rectOf: nat -> Rect, innerWidth: int)
      modifies this
      ensures markers == AppendAll(old(markers), annotations, rectOf, innerWidth)
      ensures xLabels == old(xLabels)
    {
      for i := 0 to |annotations|
        invariant markers == AppendPrefix(old(markers), annotations, rectOf, innerWidth, i)
        invariant xLabels == old(xLabels)
      {
        var tooltip := CreateTooltip(annotations[i].x, annotations[i].text);
        var key := i + 1;
        var appended := false;
        var marker: Marker;
        if key in markers && markers[key].tooltips == [] {
          marker := markers[key];
          markers := markers[key := Attach(marker, tooltip)];
          appended := true;
        }

        var rect := rectOf(i);
        if rect.right > innerWidth {
          tooltip := tooltip.(classes := tooltip.classes + {OverflowRightClass});
        } else if rect.left < 0 {
          tooltip := tooltip.(classes := tooltip.classes + {OverflowLeftClass});
        }
        if appended {
          // the node appended above is this very tooltip, so its new class shows in the marker
          markers := markers[key := Attach(marker, tooltip)];
        }
      }
    }

    /** annotationMouseOverHandler on the marker keyed k. */
    method AnnotationMouseOver(k: nat)
      requires k in markers
      modifies this
      ensures markers == old(markers)[k := MouseOver(old(markers)[k])]
      ensures xLabels == old(xLabels)
    {
      var m := markers[k];
      markers := markers[k := m.(classes := m.classes - {HiddenClass}, zIndex := Some(RaisedZIndex))];
    }

    /** annotationMouseOutHandler on the marker keyed k. */
    method AnnotationMouseOut(k: nat)
      requires k in markers
      modifies this
      ensures markers == old(markers)[k := MouseOut(old(markers)[k])]
      ensures xLabels == old(xLabels)
    {
      var m := markers[k];
      markers := markers[k := m.(classes := m.classes + {HiddenClass}, zIndex := None)];
    }

    /** appendXAxisLabels: twelve labels appended in calendar order, with no guard. */
    method AppendXAxisLabels(monthName: nat -> string)
      modifies this
      ensures xLabels == old(xLabels) + MonthLabels(monthName)
      ensures markers == old(markers)
    {
      for i := 0 to MonthsPerYear
        invariant xLabels == old(xLabels) + MonthLabels(monthName)[..i]
        invariant markers == old(markers)
      {
        var month := monthName(i);
        var labelNode := XLabel(FirstChar(month), month);
        xLabels := xLabels + [labelNode];
      }
    }

    /**
     * The draw callback of either chart: labels only on the initial draw,
     * tooltips on every draw. (setAnnotations belongs to the engine.)
     */
    method DrawCallback(isInitial: bool, annotations: seq<Descriptor>, rectOf: nat -> Rect, innerWidth: int,
                        monthName: nat -> string)
      modifies this
      ensures xLabels == old(xLabels) + (if isInitial then MonthLabels(monthName) else [])
      ensures markers == AppendAll(old(markers), annotations, rectOf, innerWidth)
    {
      if isInitial {
        AppendXAxisLabels(monthName);
      }
      AppendTooltips(annotations, rectOf, innerWidth);
    }
  }
}
