/**
 * The hover handlers (annotationMouseOverHandler / annotationMouseOutHandler,
 * scripts/main.js:53-60): a two-field state machine over a marker's class
 * set and its inline z-index.
 */
module Hover {
  import opened Optional
  import opened Overlay
  import opened AnnotationBuilder

  const RaisedZIndex: string := "100"

  /** Pointer entering (Over) or leaving (Out) a marker. */
  datatype PointerEvent = Over | Out

  /** Mouse-over: show the tooltip and raise the marker above its siblings. */
  function MouseOver(m: Marker): (m': Marker)
    ensures HiddenClass !in m'.classes && m'.zIndex == Some("100")
    ensures m'.classes + {HiddenClass} == m.classes + {HiddenClass}
    ensures m'.hasTitle == m.hasTitle && m'.tooltips == m.tooltips
  {
    m.(classes := m.classes - {HiddenClass}, zIndex := Some(RaisedZIndex))
  }

  /** Mouse-out: hide the tooltip again and drop the inline z-index. */
  function MouseOut(m: Marker): (m': Marker)
    ensures HiddenClass in m'.classes && m'.zIndex == None
    ensures m'.classes - {HiddenClass} == m.classes - {HiddenClass}
    ensures m'.hasTitle == m.hasTitle && m'.tooltips == m.tooltips
  {
    m.(classes := m.classes + {HiddenClass}, zIndex := None)
  }

  function Handle(m: Marker, e: PointerEvent): Marker {
    match e
    case Over => MouseOver(m)
    case Out => MouseOut(m)
  }

  /** The marker after the events es, handled in order. */
  function Replay(m: Marker, es: seq<PointerEvent>): Marker
    decreases |es|
  {
    if es == [] then m else Replay(Handle(m, es[0]), es[1..])
  }

  /** A hidden, unraised marker comes back exactly as it was after an over and an out. */
  lemma OverThenOutRestores(m: Marker)
    requires HiddenClass in m.classes && m.zIndex == None
    ensures MouseOut(MouseOver(m)) == m
  {
  }

  /**
   * Whatever the interleaving, the last event alone decides the visible
   * state: after a final out the tooltip is hidden with no z-index, after a
   * final over it is shown and raised. It can never stay stuck visible.
   */
  lemma {:induction false} LastEventDecides(m: Marker, es: seq<PointerEvent>)
    requires es != []
    ensures es[|es| - 1] == Out ==> HiddenClass in Replay(m, es).classes && Replay(m, es).zIndex == None
    ensures es[|es| - 1] == Over ==> HiddenClass !in Replay(m, es).classes && Replay(m, es).zIndex == Some("100")
    decreases |es|
  {
    if |es| > 1 {
      LastEventDecides(Handle(m, es[0]), es[1..]);
      assert es[1..][|es[1..]| - 1] == es[|es| - 1];
    }
  }

  /** Hovering touches nothing but the hidden class and the z-index. */
  lemma {:induction false} ReplayKeepsEverythingElse(m: Marker, es: seq<PointerEvent>)
    ensures Replay(m, es).classes - {HiddenClass} == m.classes - {HiddenClass}
    ensures Replay(m, es).hasTitle == m.hasTitle && Replay(m, es).tooltips == m.tooltips
    decreases |es|
  {
    if es != [] {
      ReplayKeepsEverythingElse(Handle(m, es[0]), es[1..]);
    }
  }
}
