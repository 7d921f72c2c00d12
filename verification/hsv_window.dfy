/**
 The colour window that a picked (hue, saturation, value) sample is turned into:
 a low and a high bound per HSV channel, as computed by `set_color`.

 The six bounds are numbered in the order in which the clamp chain tests them:
 0 low hue, 1 low saturation, 2 low value, 3 high hue, 4 high saturation,
 5 high value. This is also the order of the initial slider tuple.
 */
module HsvWindow {

  /** Half-widths of the window around the sample, per channel. */
  const HueDelta: int := 18
  const SatDelta: int := 32
  const ValDelta: int := 40

  /** Largest legal value of each channel (8-bit hue is halved to 0..179). */
  const HueMax: int := 179
  const SatMax: int := 255
  const ValMax: int := 255

  /** Six slider positions: low and high bound of hue, saturation and value. */
  datatype Window = Window(lowH: int, lowS: int, lowV: int, highH: int, highS: int, highV: int)

  /** The slider state the program starts with: the whole HSV space. */
  const InitColor: Window := Window(0, 0, 0, HueMax, SatMax, ValMax)

  /** A sample as it can come from an 8-bit HSV image. */
  predicate ValidSample(hue: int, sat: int, val: int) {
    0 <= hue <= HueMax && 0 <= sat <= SatMax && 0 <= val <= ValMax
  }

  /** Bound number `i` of `w`, in the order of the clamp chain. */
  function Bound(w: Window, i: nat): int
    requires i < 6
  {
    match i
    case 0 => w.lowH
    case 1 => w.lowS
    case 2 => w.lowV
    case 3 => w.highH
    case 4 => w.highS
    case _ => w.highV
  }

  /** Two windows are equal exactly when their six bounds are. */
  lemma BoundsDetermineWindow(a: Window, b: Window)
    ensures a == b <==> forall i :: 0 <= i < 6 ==> Bound(a, i) == Bound(b, i)
  {
    if forall i :: 0 <= i < 6 ==> Bound(a, i) == Bound(b, i) {
      assert Bound(a, 0) == Bound(b, 0) && Bound(a, 1) == Bound(b, 1) && Bound(a, 2) == Bound(b, 2);
      assert Bound(a, 3) == Bound(b, 3) && Bound(a, 4) == Bound(b, 4) && Bound(a, 5) == Bound(b, 5);
    }
  }

  /** The limit a bound is anchored to when it is out of range. */
  function Limit(i: nat): int
    requires i < 6
  {
    match i
    case 0 => 0
    case 1 => 0
    case 2 => 0
    case 3 => HueMax
    case 4 => SatMax
    case _ => ValMax
  }

  /** The test the clamp chain applies to bound `i`: below zero for a low bound, above the channel maximum for a high one. */
  predicate OutOfRange(w: Window, i: nat)
    requires i < 6
  {
    if i < 3 then Bound(w, i) < Limit(i) else Bound(w, i) > Limit(i)
  }

  /**
   The number of the first bound, in chain order, that is out of range, or 6
   when there is none: the branch of the clamp chain that is taken.
   */
  function FirstOutOfRange(w: Window): (k: nat)
    ensures k <= 6
    ensures k < 6 ==> OutOfRange(w, k)
    ensures forall j :: 0 <= j < k && j < 6 ==> !OutOfRange(w, j)
  {
    if w.lowH < 0 then 0
    else if w.lowS < 0 then 1
    else if w.lowV < 0 then 2
    else if w.highH > HueMax then 3
    else if w.highS > SatMax then 4
    else if w.highV > ValMax then 5
    else 6
  }

  /** Every bound passes the chain's test. */
  predicate AllInRange(w: Window) {
    forall i :: 0 <= i < 6 ==> !OutOfRange(w, i)
  }

  /** Every bound lies within the range of the slider that shows it. */
  predicate InSliderRange(w: Window) {
    && 0 <= w.lowH <= HueMax && 0 <= w.highH <= HueMax
    && 0 <= w.lowS <= SatMax && 0 <= w.highS <= SatMax
    && 0 <= w.lowV <= ValMax && 0 <= w.highV <= ValMax
  }

  /** Low bound not above high bound, channel by channel. */
  predicate Ordered(w: Window) {
    w.lowH <= w.highH && w.lowS <= w.highS && w.lowV <= w.highV
  }

  /** The window before clamping: centred on the sample, with the fixed half-width per channel. */
  function Unclamped(hue: int, sat: int, val: int): (w: Window)
    ensures w.lowH + w.highH == 2 * hue && w.highH - w.lowH == 2 * HueDelta
    ensures w.lowS + w.highS == 2 * sat && w.highS - w.lowS == 2 * SatDelta
    ensures w.lowV + w.highV == 2 * val && w.highV - w.lowV == 2 * ValDelta
  {
    Window(hue - HueDelta, sat - SatDelta, val - ValDelta,
           hue + HueDelta, sat + SatDelta, val + ValDelta)
  }

  /**
   The clamp step of `set_color` as written: one if/elif chain, so only the
   first out-of-range bound is anchored to its limit and the other five are
   passed through, whether in range or not.
   */
  function ClampFirst(w: Window): (r: Window)
    ensures forall i :: 0 <= i < 6 ==> Bound(r, i) == if i == FirstOutOfRange(w) then Limit(i) else Bound(w, i)
  {
    if w.lowH < 0 then w.(lowH := 0)
    else if w.lowS < 0 then w.(lowS := 0)
    else if w.lowV < 0 then w.(lowV := 0)
    else if w.highH > HueMax then w.(highH := HueMax)
    else if w.highS > SatMax then w.(highS := SatMax)
    else if w.highV > ValMax then w.(highV := ValMax)
    else w
  }

  /**
   The clamp chain changes at most one bound: the first out-of-range one,
   which it sets to its limit; a window with every bound in range is left as is.
   */
  lemma ClampFirstChangesAtMostOne(w: Window)
    ensures forall i, j :: 0 <= i < 6 && 0 <= j < 6 && Bound(ClampFirst(w), i) != Bound(w, i) && Bound(ClampFirst(w), j) != Bound(w, j) ==> i == j
    ensures forall i :: 0 <= i < 6 && Bound(ClampFirst(w), i) != Bound(w, i) ==> OutOfRange(w, i) && Bound(ClampFirst(w), i) == Limit(i)
    ensures AllInRange(w) <==> ClampFirst(w) == w
  {
    BoundsDetermineWindow(ClampFirst(w), w);
  }

  /** The window `set_color` hands to the six sliders for a picked sample. */
  function DeriveWindow(hue: int, sat: int, val: int): (r: Window)
    ensures r.lowH == if hue - HueDelta < 0 then 0 else hue - HueDelta
    ensures var u := Unclamped(hue, sat, val);
            forall i :: 0 <= i < 6 ==> Bound(r, i) == if i == FirstOutOfRange(u) then Limit(i) else Bound(u, i)
  {
    ClampFirst(Unclamped(hue, sat, val))
  }

  /** For a sample from an 8-bit HSV image, every channel of the derived window has low <= high. */
  lemma DeriveWindowOrdered(hue: int, sat: int, val: int)
    requires ValidSample(hue, sat, val)
    ensures Ordered(DeriveWindow(hue, sat, val))
  {
  }

  /** When no bound of the unclamped window is out of range, clamping is the identity. */
  lemma DeriveWindowNoClamp(hue: int, sat: int, val: int)
    requires HueDelta <= hue <= HueMax - HueDelta
    requires SatDelta <= sat <= SatMax - SatDelta
    requires ValDelta <= val <= ValMax - ValDelta
    ensures DeriveWindow(hue, sat, val) == Unclamped(hue, sat, val)
    ensures InSliderRange(DeriveWindow(hue, sat, val))
  {
    assert AllInRange(Unclamped(hue, sat, val)) by {
      forall i | 0 <= i < 6 ensures !OutOfRange(Unclamped(hue, sat, val), i) {
      }
    }
  }

  /** Worked samples: one with nothing to clamp, and two where the chain clamps only one of several out-of-range bounds. */
  lemma DeriveWindowExamples()
    ensures DeriveWindow(100, 200, 50) == Window(82, 168, 10, 118, 232, 90)
    ensures DeriveWindow(5, 10, 5) == Window(0, -22, -35, 23, 42, 45)
    ensures DeriveWindow(175, 250, 250) == Window(157, 218, 210, 179, 282, 290)
  {
  }

  /** The derived window of a legal sample can leave the slider ranges: the chain stops after its first clamp. */
  lemma DeriveWindowMayLeaveRange()
    ensures ValidSample(5, 10, 5) && !InSliderRange(DeriveWindow(5, 10, 5))
  {
    assert DeriveWindow(5, 10, 5).lowS == -22;
  }

  /**
   Clamping as the comment above the chain describes it: every bound that
   goes beyond its range is anchored to its limit, each one independently.
   */
  function ClampEach(w: Window): (r: Window)
    ensures forall i :: 0 <= i < 6 ==> !OutOfRange(r, i)
    ensures forall i :: 0 <= i < 6 ==> Bound(r, i) == if OutOfRange(w, i) then Limit(i) else Bound(w, i)
  {
    Window(if w.lowH < 0 then 0 else w.lowH,
           if w.lowS < 0 then 0 else w.lowS,
           if w.lowV < 0 then 0 else w.lowV,
           if w.highH > HueMax then HueMax else w.highH,
           if w.highS > SatMax then SatMax else w.highS,
           if w.highV > ValMax then ValMax else w.highV)
  }

  /** The window the code evidently intends: the unclamped window with every bound clamped. */
  function IntendedWindow(hue: int, sat: int, val: int): (r: Window)
    requires ValidSample(hue, sat, val)
    ensures InSliderRange(r) && Ordered(r)
  {
    ClampEach(Unclamped(hue, sat, val))
  }

  /** The chain and independent clamping agree exactly when at most one bound is out of range. */
  lemma ClampFirstAgreesWhenOneOut(w: Window)
    ensures ClampFirst(w) == ClampEach(w) <==>
              forall i, j :: 0 <= i < 6 && 0 <= j < 6 && OutOfRange(w, i) && OutOfRange(w, j) ==> i == j
  {
    if ClampFirst(w) == ClampEach(w) {
      forall i, j | 0 <= i < 6 && 0 <= j < 6 && OutOfRange(w, i) && OutOfRange(w, j) ensures i == j {
        assert Bound(ClampFirst(w), i) != Bound(w, i) && Bound(ClampFirst(w), j) != Bound(w, j);
      }
    } else {
      BoundsDetermineWindow(ClampFirst(w), ClampEach(w));
      var k :| 0 <= k < 6 && Bound(ClampFirst(w), k) != Bound(ClampEach(w), k);
      assert OutOfRange(w, k) && k != FirstOutOfRange(w);
      var j :| 0 <= j < k && OutOfRange(w, j);
      assert !(forall i, j' :: 0 <= i < 6 && 0 <= j' < 6 && OutOfRange(w, i) && OutOfRange(w, j') ==> i == j');
    }
  }
}
