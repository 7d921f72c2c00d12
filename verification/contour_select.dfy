/**
 Choosing the contour to box: among the contours found in the mask, the one
 with the largest area, ties going to the one found first. Contour areas are
 inputs here; the contour at index `k` of the list has area `areas[k]`.
 */
module ContourSelect {

  datatype Option<T> = None | Some(value: T)

  /** `k` is the position of the first largest area in `areas`. */
  predicate IsFirstMax(areas: seq<real>, k: nat) {
    && k < |areas|
    && (forall j :: 0 <= j < |areas| ==> areas[j] <= areas[k])
    && (forall j :: 0 <= j < k ==> areas[j] < areas[k])
  }

  /**
   `max` with a key over the (area, contour) pairs: a left-to-right scan that
   moves to a later pair only when its area is strictly larger.
   */
  function FirstMaxIndex(areas: seq<real>): (k: nat)
    requires |areas| > 0
    ensures IsFirstMax(areas, k)
    decreases |areas|
  {
    if |areas| == 1 then 0
    else
      var last := |areas| - 1;
      var k := FirstMaxIndex(areas[..last]);
      if areas[last] > areas[k] then last else k
  }

  /** The first largest position is the only position that is largest with nothing as large before it. */
  lemma FirstMaxUnique(areas: seq<real>, k: nat)
    requires IsFirstMax(areas, k)
    ensures k == FirstMaxIndex(areas)
  {
  }

  /**
   The selection guarded by the non-empty test: no contour when the mask has
   none, otherwise the first contour of largest area.
   */
  function LargestContour(areas: seq<real>): (r: Option<nat>)
    ensures r.None? <==> |areas| == 0
    ensures r.Some? ==> IsFirstMax(areas, r.value)
  {
    if |areas| != 0 then Some(FirstMaxIndex(areas)) else None
  }
}
