/**
 The six trackbars of the mask-settings window, as the state that a colour
 pick overwrites and that the main loop reads back every frame.
 */
module SliderPanel {
  import opened HsvWindow

  class Sliders {
    var lowHue: int
    var highHue: int
    var lowSat: int
    var highSat: int
    var lowVal: int
    var highVal: int

    /** The six positions as a window, in the order of the initial slider tuple. */
    function Positions(): Window
      reads this
    {
      Window(lowHue, lowSat, lowVal, highHue, highSat, highVal)
    }

    /** The trackbars are created at the initial tuple: the whole HSV space, within every slider's range. */
    constructor ()
      ensures Positions() == InitColor
      ensures InSliderRange(Positions()) && Ordered(Positions())
    {
      lowHue := InitColor.lowH;
      highHue := InitColor.highH;
      lowSat := InitColor.lowS;
      highSat := InitColor.highS;
      lowVal := InitColor.lowV;
      highVal := InitColor.highV;
    }

    /**
     `set_color`: widen the picked sample into a window, clamp it with the
     if/elif chain, and write all six positions. Every slider is overwritten;
     the result is the derived window whatever the sliders held before.
     */
    method SetColor(hue: int, sat: int, val: int)
      modifies this
      ensures Positions() == DeriveWindow(hue, sat, val)
      ensures ValidSample(hue, sat, val) ==> Ordered(Positions())
    {
      var lowH := hue - HueDelta;
      var lowS := sat - SatDelta;
      var lowV := val - ValDelta;
      var highH := hue + HueDelta;
      var highS := sat + SatDelta;
      var highV := val + ValDelta;

      if lowH < 0 {
        lowH := 0;
      } else if lowS < 0 {
        lowS := 0;
      } else if lowV < 0 {
        lowV := 0;
      } else if highH > HueMax {
        highH := HueMax;
      } else if highS > SatMax {
        highS := SatMax;
      } else if highV > ValMax {
        highV := ValMax;
      }

      lowHue := lowH;
      highHue := highH;
      lowSat := lowS;
      highSat := highS;
      lowVal := lowV;
      highVal := highV;

      if ValidSample(hue, sat, val) {
        DeriveWindowOrdered(hue, sat, val);
      }
    }
  }
}
