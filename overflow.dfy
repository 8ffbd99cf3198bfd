/**
 * The horizontal overflow check of appendTooltips (scripts/main.js:160-167):
 * a three-way decision on a tooltip's measured rectangle against the width
 * of the viewport.
 */
module Overflow {
  import opened Optional

  /** The measured left and right edges of a node, in viewport pixels. */
  datatype Rect = Rect(left: int, right: int)

  datatype OverflowState = Normal | OverflowRight | OverflowLeft

  const OverflowRightClass: string := "tooltip-overflow-right"
  const OverflowLeftClass: string := "tooltip-overflow-left"

  /** The right edge is tested first, so a tooltip wider than the viewport counts as overflowing right. */
  function Classify(rect: Rect, innerWidth: int): (s: OverflowState)
    ensures s == OverflowRight <==> rect.right > innerWidth
    ensures s == OverflowLeft <==> rect.right <= innerWidth && rect.left < 0
    ensures s == Normal <==> 0 <= rect.left && rect.right <= innerWidth
  {
    if rect.right > innerWidth then OverflowRight
    else if rect.left < 0 then OverflowLeft
    else Normal
  }

  /** The class an overflow state adds to the tooltip, if any. */
  function StateClass(s: OverflowState): Option<string> {
    match s
    case Normal => None
    case OverflowRight => Some(OverflowRightClass)
    case OverflowLeft => Some(OverflowLeftClass)
  }

  /**
   * Adding the class of one classification to a class set adds at most one
   * overflow class, and to a set holding neither it never yields both.
   */
  function AddOverflowClass(classes: set<string>, rect: Rect, innerWidth: int): (r: set<string>)
    ensures classes <= r
    ensures r - classes <= {OverflowRightClass} || r - classes <= {OverflowLeftClass}
    ensures OverflowRightClass !in classes && OverflowLeftClass !in classes ==>
      !(OverflowRightClass in r && OverflowLeftClass in r)
    ensures 0 <= rect.left && rect.right <= innerWidth ==> r == classes
    ensures rect.right > innerWidth ==> r == classes + {OverflowRightClass}
    ensures rect.right <= innerWidth && rect.left < 0 ==> r == classes + {OverflowLeftClass}
  {
    match StateClass(Classify(rect, innerWidth))
    case None => classes
    case Some(c) => classes + {c}
  }
}
